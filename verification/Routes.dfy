/** Routes, the payload wanted for a row, and when a remote route matches it
    (src/grantora/apisix/reconciler.py). */
module Routes {
  import opened Prelude
  import opened Json

  type RouteId = string
  type Route = map<string, Json>
  type RouteMap = map<RouteId, Route>

  /** Unset is the status of a row object that was never flushed: the column default is not applied yet. */
  datatype RowStatus = ActiveRow | DisabledRow | UnsetRow

  datatype RouteRow = RouteRow(
    id: RouteId, name: string, uri: string, upstream: map<string, Json>, plugins: map<string, Json>, status: RowStatus)

  /** The settings a payload depends on. */
  datatype Policy = Policy(rateLimitCount: int, rateLimitWindow: int, upstreamNode: string)

  const DEFAULT_ROUTE_ID: RouteId := "gateway-runtime"
  const DEFAULT_ROUTE_URI := "/v1/runtime/*"
  const MANAGED_KEY := "grantora_managed"
  const MANAGED_VALUE := "true"
  const ROUTE_ID_KEY := "grantora_route_id"

  const DEFAULT_ROUTE_URIS: seq<Json> := [
    Str("/v1/me"), Str("/v1/capabilities"), Str("/v1/capabilities/openapi.json"), Str("/v1/openapi.json"),
    Str("/v1/invoke/*"), Str("/v1/usage/me"), Str("/v1/mcp/tools"), Str("/v1/mcp/call")]

  function ManagedLabels(id: RouteId): map<string, Json> {
    map[MANAGED_KEY := Str(MANAGED_VALUE), ROUTE_ID_KEY := Str(id)]
  }

  function BaselinePlugins(policy: Policy): map<string, Json> {
    map["prometheus" := Obj(map[]),
        "request-id" := Obj(map[]),
        "limit-count" := Obj(map["count" := Int(policy.rateLimitCount),
                                 "time_window" := Int(policy.rateLimitWindow),
                                 "rejected_code" := Int(429)])]
  }

  function DefaultUpstream(policy: Policy): map<string, Json> {
    map["type" := Str("roundrobin"), "nodes" := Obj(map[policy.upstreamNode := Int(1)])]
  }

  /** default_runtime_route; flushing it applies the column default for the status. */
  function DefaultRow(policy: Policy, status: RowStatus): RouteRow {
    RouteRow(DEFAULT_ROUTE_ID, "Grantora runtime API", DEFAULT_ROUTE_URI, DefaultUpstream(policy),
      BaselinePlugins(policy), status)
  }

  /** build_apisix_route_payload */
  function Payload(row: RouteRow, policy: Policy): Route {
    var common := map[
      "name" := Str(row.name),
      "upstream" := Obj(row.upstream),
      "plugins" := Obj(BaselinePlugins(policy) + row.plugins),
      "labels" := Obj(ManagedLabels(row.id)),
      "status" := Int(if row.status.ActiveRow? then 1 else 0)];
    if row.id == DEFAULT_ROUTE_ID then common["uris" := Arr(DEFAULT_ROUTE_URIS)]
    else common["uri" := Str(row.uri)]
  }

  /** route_matches_desired: Python equality on the keys of the desired payload only. */
  predicate Matches(current: Route, desired: Route) {
    forall key :: key in desired ==> Equal(Get(current, key), desired[key], true)
  }

  /** route_is_grantora_managed */
  predicate IsManaged(route: Route) {
    var labels := Get(route, "labels");
    labels.Obj? && Get(labels.fields, MANAGED_KEY) == Str(MANAGED_VALUE)
  }

  lemma MatchesItself(desired: Route)
    ensures Matches(desired, desired)
  {
    forall key | key in desired ensures Equal(Get(desired, key), desired[key], true) {
      EqualReflexive(desired[key], true);
    }
  }

  lemma MatchingRouteIsManaged(current: Route, row: RouteRow, policy: Policy)
    requires Matches(current, Payload(row, policy))
    ensures IsManaged(current)
  {
    var wanted := Payload(row, policy);
    assert "labels" in wanted && wanted["labels"] == Obj(ManagedLabels(row.id));
    assert Equal(Get(current, "labels"), wanted["labels"], true);
    assert MANAGED_KEY in ManagedLabels(row.id);
  }

  lemma PayloadIsManaged(row: RouteRow, policy: Policy)
    ensures IsManaged(Payload(row, policy))
  {
    hide Equal;
    MatchesItself(Payload(row, policy));
    MatchingRouteIsManaged(Payload(row, policy), row, policy);
  }

  /** The plugins a row ends up with: its own settings over the baseline. */
  function EffectivePlugins(row: RouteRow, policy: Policy): Json {
    Obj(BaselinePlugins(policy) + row.plugins)
  }

  /** A route pushed for one version of a row matches another version exactly when nothing that reaches the
      remote changed: name, upstream, effective plugins, active or not, and, except for the default route
      whose uris are fixed, the uri. Every other edit shows up as drift. */
  lemma EditIsUnseenIff(before: RouteRow, after: RouteRow, policy: Policy)
    requires before.id == after.id
    ensures Matches(Payload(before, policy), Payload(after, policy)) <==> (
      && before.name == after.name
      && Equal(Obj(before.upstream), Obj(after.upstream), true)
      && Equal(EffectivePlugins(before, policy), EffectivePlugins(after, policy), true)
      && (before.status.ActiveRow? <==> after.status.ActiveRow?)
      && (before.id == DEFAULT_ROUTE_ID || before.uri == after.uri))
  {
    hide Payload, Equal, ManagedLabels, EffectivePlugins, DEFAULT_ROUTE_URIS;
    PayloadFields(before, policy);
    PayloadFields(after, policy);
    SameStatusIff(before.status.ActiveRow?, after.status.ActiveRow?);
    SameStringIff(before.name, after.name);
    SameStringIff(before.uri, after.uri);
    EqualReflexive(Obj(ManagedLabels(after.id)), true);
    EqualReflexive(Arr(DEFAULT_ROUTE_URIS), true);
  }

  function UriKey(row: RouteRow): string {
    if row.id == DEFAULT_ROUTE_ID then "uris" else "uri"
  }

  lemma PayloadFields(row: RouteRow, policy: Policy)
    ensures var p := Payload(row, policy);
      && p.Keys == {"name", "upstream", "plugins", "labels", "status", UriKey(row)}
      && p["name"] == Str(row.name) && p["upstream"] == Obj(row.upstream)
           && p["plugins"] == EffectivePlugins(row, policy)
      && p["labels"] == Obj(ManagedLabels(row.id)) && p["status"] == Int(if row.status.ActiveRow? then 1 else 0)
      && p[UriKey(row)] == if row.id == DEFAULT_ROUTE_ID then Arr(DEFAULT_ROUTE_URIS) else Str(row.uri)
  {
    hide BaselinePlugins, ManagedLabels, DEFAULT_ROUTE_URIS;
  }

  lemma SameStatusIff(a: bool, b: bool)
    ensures Equal(Int(if a then 1 else 0), Int(if b then 1 else 0), true) <==> a == b
  {
  }

  lemma SameStringIff(a: string, b: string)
    ensures Equal(Str(a), Str(b), true) <==> a == b
  {
  }

  // ----- What a matching route serves -----

  /** An object whose field has the value, by Python's equality. */
  predicate FieldIs(document: Json, key: string, value: Json) {
    document.Obj? && key in document.fields && Equal(document.fields[key], value, true)
  }

  /** The rate limit of the settings. */
  predicate LimitsBy(plugin: Json, policy: Policy) {
    && FieldIs(plugin, "count", Int(policy.rateLimitCount))
    && FieldIs(plugin, "time_window", Int(policy.rateLimitWindow))
    && FieldIs(plugin, "rejected_code", Int(429))
    && plugin.fields.Keys == {"count", "time_window", "rejected_code"}
  }

  /** The row's own plugins, and for each of the three baseline plugins it does not set itself, the baseline. */
  predicate ServesPlugins(plugins: Json, own: map<string, Json>, policy: Policy) {
    && plugins.Obj? && plugins.fields.Keys == own.Keys + {"prometheus", "request-id", "limit-count"}
    && (forall key :: key in own ==> FieldIs(plugins, key, own[key]))
    && ("prometheus" in own || plugins.fields["prometheus"] == Obj(map[]))
    && ("request-id" in own || plugins.fields["request-id"] == Obj(map[]))
    && ("limit-count" in own || LimitsBy(plugins.fields["limit-count"], policy))
  }

  /** The default route serves the whole runtime API, any other route the uri of its row. */
  predicate ServesUri(route: Route, row: RouteRow) {
    if row.id == "gateway-runtime" then
      Get(route, "uris") == Arr([
        Str("/v1/me"), Str("/v1/capabilities"), Str("/v1/capabilities/openapi.json"), Str("/v1/openapi.json"),
        Str("/v1/invoke/*"), Str("/v1/usage/me"), Str("/v1/mcp/tools"), Str("/v1/mcp/call")])
    else Get(route, "uri") == Str(row.uri)
  }

  predicate Serves(route: Route, row: RouteRow, policy: Policy) {
    && Get(route, "name") == Str(row.name)
    && Equal(Get(route, "upstream"), Obj(row.upstream), true)
    && ServesPlugins(Get(route, "plugins"), row.plugins, policy)
    && Get(route, "labels") == Obj(map["grantora_managed" := Str("true"), "grantora_route_id" := Str(row.id)])
    && Equal(Get(route, "status"), Int(if row.status.ActiveRow? then 1 else 0), true)
    && ServesUri(route, row)
  }

  /** A route is in sync with a row exactly when it serves it. */
  lemma InSyncIffServes(route: Route, row: RouteRow, policy: Policy)
    ensures Matches(route, Payload(row, policy)) <==> Serves(route, row, policy)
  {
    hide Payload, Equal, Get, ManagedLabels, EffectivePlugins, DEFAULT_ROUTE_URIS, ServesPlugins;
    PayloadFields(row, policy);
    PluginsMatchIff(Get(route, "plugins"), row, policy);
    LabelsMatchIff(Get(route, "labels"), row.id);
    UrisMatchIff(Get(route, "uris"));
    StringMatchesIff(Get(route, "name"), row.name);
    StringMatchesIff(Get(route, "uri"), row.uri);
  }

  lemma StringMatchesIff(current: Json, s: string)
    ensures Equal(current, Str(s), true) <==> current == Str(s)
  {
  }

  lemma LabelsMatchIff(current: Json, id: RouteId)
    ensures Equal(current, Obj(ManagedLabels(id)), true)
      <==> current == Obj(map["grantora_managed" := Str("true"), "grantora_route_id" := Str(id)])
  {
    var wanted := ManagedLabels(id);
    assert wanted.Keys == {"grantora_managed", "grantora_route_id"};
    if Equal(current, Obj(wanted), true) {
      assert forall key :: key in current.fields ==> Equal(current.fields[key], wanted[key], true);
      assert current.fields == wanted;
    }
    EqualReflexive(Obj(wanted), true);
  }

  lemma UrisMatchIff(current: Json)
    ensures Equal(current, Arr(DEFAULT_ROUTE_URIS), true) <==> current == Arr([
      Str("/v1/me"), Str("/v1/capabilities"), Str("/v1/capabilities/openapi.json"), Str("/v1/openapi.json"),
      Str("/v1/invoke/*"), Str("/v1/usage/me"), Str("/v1/mcp/tools"), Str("/v1/mcp/call")])
  {
    if Equal(current, Arr(DEFAULT_ROUTE_URIS), true) {
      assert forall i :: 0 <= i < |current.items| ==> Equal(current.items[i], DEFAULT_ROUTE_URIS[i], true);
      assert current.items == DEFAULT_ROUTE_URIS;
    }
    EqualReflexive(Arr(DEFAULT_ROUTE_URIS), true);
  }

  lemma LimitMatchesIff(current: Json, policy: Policy)
    ensures Equal(current, BaselinePlugins(policy)["limit-count"], true) <==> LimitsBy(current, policy)
  {
    var wanted := BaselinePlugins(policy)["limit-count"];
    assert wanted.fields.Keys == {"count", "time_window", "rejected_code"};
    assert Equal(current, wanted, true) <==> (
      && current.Obj? && current.fields.Keys == wanted.fields.Keys
      && forall key :: key in current.fields ==> Equal(current.fields[key], wanted.fields[key], true));
  }

  lemma EmptyMatchesIff(current: Json)
    ensures Equal(current, Obj(map[]), true) <==> current == Obj(map[])
  {
  }

  lemma PluginsMatchIff(current: Json, row: RouteRow, policy: Policy)
    ensures Equal(current, EffectivePlugins(row, policy), true) <==> ServesPlugins(current, row.plugins, policy)
  {
    hide LimitsBy;
    var wanted := BaselinePlugins(policy) + row.plugins;
    var baseline := {"prometheus", "request-id", "limit-count"};
    assert BaselinePlugins(policy).Keys == baseline;
    if current.Obj? && current.fields.Keys == wanted.Keys {
      LimitMatchesIff(current.fields["limit-count"], policy);
      EmptyMatchesIff(current.fields["prometheus"]);
      EmptyMatchesIff(current.fields["request-id"]);
    }
  }

  /** The payload itself carries the settings' rate limit as plain integers, unless the row has its own. */
  lemma PayloadCarriesTheLimit(row: RouteRow, policy: Policy)
    ensures Serves(Payload(row, policy), row, policy)
    ensures "limit-count" in row.plugins || Payload(row, policy)["plugins"].fields["limit-count"]
      == Obj(map["count" := Int(policy.rateLimitCount), "time_window" := Int(policy.rateLimitWindow),
        "rejected_code" := Int(429)])
  {
    hide Equal, Serves;
    MatchesItself(Payload(row, policy));
    InSyncIffServes(Payload(row, policy), row, policy);
  }

  /** The default route forwards to the one upstream node of the settings it was made under, and keeps their rate
      limit whatever the settings are now. */
  lemma DefaultRouteServes(route: Route, made: Policy, status: RowStatus, policy: Policy)
    requires Matches(route, Payload(DefaultRow(made, status), policy))
    ensures Get(route, "name") == Str("Grantora runtime API")
    ensures FieldIs(Get(route, "upstream"), "type", Str("roundrobin"))
    ensures FieldIs(Get(route, "upstream"), "nodes", Obj(map[made.upstreamNode := Int(1)]))
    ensures Get(route, "upstream").fields.Keys == {"type", "nodes"}
    ensures Get(route, "plugins").Obj? && "limit-count" in Get(route, "plugins").fields
    ensures LimitsBy(Get(route, "plugins").fields["limit-count"], made)
  {
    hide Equal, LimitsBy;
    var row := DefaultRow(made, status);
    InSyncIffServes(route, row, policy);
    UpstreamMatches(Get(route, "upstream"), made);
    assert FieldIs(Get(route, "plugins"), "limit-count", row.plugins["limit-count"]);
    LimitMatchesIff(Get(route, "plugins").fields["limit-count"], made);
  }

  lemma UpstreamMatches(current: Json, policy: Policy)
    requires Equal(current, Obj(DefaultUpstream(policy)), true)
    ensures FieldIs(current, "type", Str("roundrobin"))
    ensures FieldIs(current, "nodes", Obj(map[policy.upstreamNode := Int(1)]))
    ensures current.fields.Keys == {"type", "nodes"}
  {
    assert current.fields.Keys == DefaultUpstream(policy).Keys;
    assert forall key :: key in current.fields ==> Equal(current.fields[key], DefaultUpstream(policy)[key], true);
  }

  /** New settings reach a route exactly when they change the rate limit and the row has none of its own. */
  lemma SettingsAreUnseenIff(row: RouteRow, before: Policy, after: Policy)
    ensures Matches(Payload(row, before), Payload(row, after)) <==>
      || "limit-count" in row.plugins
      || (before.rateLimitCount == after.rateLimitCount && before.rateLimitWindow == after.rateLimitWindow)
  {
    hide Equal, Payload, Matches, EffectivePlugins;
    PayloadFields(row, before);
    PayloadCarriesTheLimit(row, before);
    InSyncIffServes(Payload(row, before), row, after);
    LimitsAgreeIff(before, after);
  }

  lemma LimitsAgreeIff(before: Policy, after: Policy)
    ensures LimitsBy(Obj(map["count" := Int(before.rateLimitCount), "time_window" := Int(before.rateLimitWindow),
        "rejected_code" := Int(429)]), after)
      <==> before.rateLimitCount == after.rateLimitCount && before.rateLimitWindow == after.rateLimitWindow
  {
  }

  // ----- The state a route should end in -----

  function Look(routes: RouteMap, id: RouteId): Option<Route> {
    if id in routes then Some(routes[id]) else None
  }

  function RowIds(rows: seq<RouteRow>): set<RouteId> {
    set i | 0 <= i < |rows| :: rows[i].id
  }

  /** The primary key of apisix_routes. */
  ghost predicate DistinctRows(rows: seq<RouteRow>) {
    forall i, j :: 0 <= i < j < |rows| ==> rows[i].id != rows[j].id
  }

  predicate InSync(current: Option<Route>, row: RouteRow, policy: Policy) {
    current.Some? && Matches(current.value, Payload(row, policy))
  }

  function RowFor(rows: seq<RouteRow>, id: RouteId): Option<RouteRow> {
    if rows == [] then None
    else if rows[0].id == id then Some(rows[0])
    else RowFor(rows[1..], id)
  }

  /** What the rows ask of one route id: match the row if there is one, otherwise carry no managed label. */
  function TargetAt(rows: seq<RouteRow>, policy: Policy, id: RouteId, current: Option<Route>): Option<Route> {
    match RowFor(rows, id)
    case Some(row) => if InSync(current, row, policy) then current else Some(Payload(row, policy))
    case None => if current.Some? && IsManaged(current.value) then None else current
  }

  lemma {:induction false} RowForCorrect(rows: seq<RouteRow>, id: RouteId)
    ensures RowFor(rows, id).Some? <==> id in RowIds(rows)
    ensures RowFor(rows, id).Some? ==> RowFor(rows, id).value in rows && RowFor(rows, id).value.id == id
  {
    if rows != [] {
      RowForCorrect(rows[1..], id);
      if id in RowIds(rows) && rows[0].id != id {
        var i :| 0 <= i < |rows| && rows[i].id == id;
        assert rows[1..][i - 1] == rows[i];
      }
      if id in RowIds(rows[1..]) {
        var i :| 0 <= i < |rows| - 1 && rows[1..][i].id == id;
        assert rows[i + 1].id == id;
      }
    }
  }

  lemma {:induction false} RowForOwn(rows: seq<RouteRow>, i: nat)
    requires DistinctRows(rows) && i < |rows|
    ensures RowFor(rows, rows[i].id) == Some(rows[i])
  {
    if i > 0 {
      RowForOwn(rows[1..], i - 1);
    }
  }

  lemma TargetIsStable(rows: seq<RouteRow>, policy: Policy, id: RouteId, current: Option<Route>)
    ensures TargetAt(rows, policy, id, TargetAt(rows, policy, id, current)) == TargetAt(rows, policy, id, current)
  {
    if RowFor(rows, id).Some? {
      MatchesItself(Payload(RowFor(rows, id).value, policy));
    }
  }

  // ----- Drift -----

  /** Ids of rows whose remote route is missing or different. */
  ghost function Mismatched(rows: seq<RouteRow>, policy: Policy, routes: RouteMap): set<RouteId> {
    set i | 0 <= i < |rows| && !InSync(Look(routes, rows[i].id), rows[i], policy) :: rows[i].id
  }

  /** Managed remote ids that no row asks for. */
  ghost function Stale(rows: seq<RouteRow>, routes: RouteMap): set<RouteId> {
    set id | id in routes && id !in RowIds(rows) && IsManaged(routes[id])
  }

  ghost function Dirty(rows: seq<RouteRow>, policy: Policy, routes: RouteMap): set<RouteId> {
    Mismatched(rows, policy, routes) + Stale(rows, routes)
  }

  ghost function Drift(rows: seq<RouteRow>, policy: Policy, routes: RouteMap): nat {
    |Mismatched(rows, policy, routes)| + |Stale(rows, routes)|
  }

  lemma DriftCountsDirty(rows: seq<RouteRow>, policy: Policy, routes: RouteMap)
    ensures Drift(rows, policy, routes) == |Dirty(rows, policy, routes)|
  {
    hide InSync, IsManaged;
    assert Mismatched(rows, policy, routes) !! Stale(rows, routes);
  }

  /** An id is dirty exactly when it is not in its target state. */
  lemma DirtyIffOffTarget(rows: seq<RouteRow>, policy: Policy, routes: RouteMap, id: RouteId)
    requires DistinctRows(rows)
    ensures id in Dirty(rows, policy, routes) <==> TargetAt(rows, policy, id, Look(routes, id)) != Look(routes, id)
  {
    hide Payload, IsManaged, Matches;
    RowForCorrect(rows, id);
    if RowFor(rows, id).Some? {
      var i :| 0 <= i < |rows| && rows[i] == RowFor(rows, id).value;
      MatchesItself(Payload(rows[i], policy));
      if id in Mismatched(rows, policy, routes) {
        var j :| 0 <= j < |rows| && rows[j].id == id && !InSync(Look(routes, id), rows[j], policy);
        assert i == j;
      }
    }
  }
}
