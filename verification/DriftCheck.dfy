/** check_apisix_route_drift and how it relates to a sync (src/grantora/apisix/reconciler.py). */
module DriftCheck {
  import opened Prelude
  import opened Text
  import opened Routes
  import opened SyncRun
  import opened Convergence
  import opened Reconciler

  datatype DriftStatus = InSyncStatus | DriftedStatus | ErrorStatus

  datatype DriftResult = DriftResult(
    status: DriftStatus, checked: nat, drifted: nat, missing: nat, failure: Option<Failure>)

  /** desired_apisix_routes: a default row that is not persisted is built but never flushed, so its
      status is unset. */
  function DesiredRows(rows: seq<RouteRow>, policy: Policy): seq<RouteRow> {
    if DEFAULT_ROUTE_ID in RowIds(rows) then rows else [DefaultRow(policy, UnsetRow)] + rows
  }

  ghost function Missing(rows: seq<RouteRow>, routes: RouteMap): set<RouteId> {
    set i | 0 <= i < |rows| && rows[i].id !in routes :: rows[i].id
  }

  /** Every row the check looks at is matched by the remote. */
  ghost predicate NoneDrifted(rows: seq<RouteRow>, policy: Policy, routes: RouteMap) {
    Mismatched(DesiredRows(rows, policy), policy, routes) == {}
  }

  /** The check changes nothing; without a failure it counts exactly the mismatched and the missing rows. */
  method CheckDrift(store: RouteStore, policy: Policy, client: ApisixAdmin) returns (r: DriftResult)
    requires store.Valid()
    modifies client`faults
    ensures r.checked == |DesiredRows(store.rows, policy)|
    ensures r.missing <= r.drifted <= r.checked
    ensures r.failure.None? ==> (
      && r.drifted == |Mismatched(DesiredRows(store.rows, policy), policy, client.routes)|
      && r.missing == |Missing(DesiredRows(store.rows, policy), client.routes)|)
    ensures r.status.ErrorStatus? <==> r.failure.Some?
    ensures r.status.InSyncStatus? <==> r.failure.None? && NoneDrifted(store.rows, policy, client.routes)
  {
    hide Matches, Payload, DefaultRow;
    var rows := DesiredRows(store.rows, policy);
    DesiredRowsDistinct(store.rows, policy);
    var drifted, missing := 0, 0;
    for k := 0 to |rows|
      invariant missing <= drifted <= k
      invariant drifted == |Mismatched(rows[..k], policy, client.routes)|
      invariant missing == |Missing(rows[..k], client.routes)|
    {
      MismatchedStep(rows, k, policy, client.routes);
      var r := client.GetRoute(rows[k].id);
      if r.Err? {
        return DriftResult(ErrorStatus, |rows|, drifted, missing, Some(r.error));
      }
      if r.value.None? {
        missing, drifted := missing + 1, drifted + 1;
      } else if !Matches(r.value.value, Payload(rows[k], policy)) {
        drifted := drifted + 1;
      }
    }
    assert rows[..|rows|] == rows;
    return DriftResult(if drifted > 0 then DriftedStatus else InSyncStatus, |rows|, drifted, missing, None);
  }

  lemma DesiredRowsDistinct(rows: seq<RouteRow>, policy: Policy)
    requires StrictlySorted(rows, RowId)
    ensures DistinctRows(DesiredRows(rows, policy))
  {
    SortedRowsAreDistinct(rows);
  }

  lemma MismatchedStep(rows: seq<RouteRow>, k: nat, policy: Policy, routes: RouteMap)
    requires DistinctRows(rows) && k < |rows|
    ensures |Mismatched(rows[..k + 1], policy, routes)|
         == |Mismatched(rows[..k], policy, routes)| + if InSync(Look(routes, rows[k].id), rows[k], policy) then 0 else 1
    ensures |Missing(rows[..k + 1], routes)| == |Missing(rows[..k], routes)| + if rows[k].id in routes then 0 else 1
  {
    hide InSync, Mismatched, Missing, Look;
    var front := rows[..k];
    assert rows[..k + 1] == front + [rows[k]];
    assert rows[k].id !in RowIds(front);
    MismatchedAreRows(front, policy, routes);
    MismatchedOfAppend(front, rows[k], policy, routes);
    MissingOfAppend(front, rows[k], routes);
  }

  lemma MissingOfAppend(front: seq<RouteRow>, row: RouteRow, routes: RouteMap)
    ensures Missing(front + [row], routes) == Missing(front, routes) + if row.id in routes then {} else {row.id}
    ensures Missing(front, routes) <= RowIds(front)
  {
    var all := front + [row];
    assert all[|front|] == row;
    forall id
      ensures id in Missing(all, routes) <==> id in Missing(front, routes) + if row.id in routes then {} else {row.id} {
      if i :| 0 <= i < |front| && front[i].id == id && id !in routes {
        assert all[i] == front[i];
      }
    }
  }

  lemma MismatchedOfAppend(front: seq<RouteRow>, row: RouteRow, policy: Policy, routes: RouteMap)
    ensures Mismatched(front + [row], policy, routes)
         == Mismatched(front, policy, routes) + if InSync(Look(routes, row.id), row, policy) then {} else {row.id}
  {
    hide InSync, Look;
    var all := front + [row];
    forall i | 0 <= i < |front| ensures all[i] == front[i] { }
    assert all[|front|] == row;
    forall id ensures id in Mismatched(all, policy, routes)
      <==> id in Mismatched(front, policy, routes) + if InSync(Look(routes, row.id), row, policy) then {} else {row.id}
    {
      if i :| 0 <= i < |front| && front[i].id == id && !InSync(Look(routes, id), front[i], policy) {
        assert all[i] == front[i];
      }
    }
  }

  // ----- The check against a sync of the same state -----

  /** With the default row persisted, a failure-free check reports the puts a clean sync would make: the
      sync changes those and the stale routes, and after it a check is in sync. */
  lemma CheckAgreesWithSync(rows: seq<RouteRow>, policy: Policy, a: Attempt, remote: RouteMap)
    requires StrictlySorted(rows, RowId) && DEFAULT_ROUTE_ID in RowIds(rows)
    requires Clean(rows, policy, a, remote)
    ensures PersistedRows(rows, policy) == rows == DesiredRows(rows, policy)
    ensures var q := RunOf(rows, policy, a, remote);
      && q.changed == |Mismatched(DesiredRows(rows, policy), policy, remote)| + |Stale(rows, remote)|
      && NoneDrifted(rows, policy, q.remote)
  {
    hide Run, Mismatched, Stale, Covers, ReachesTarget;
    SortedRowsAreDistinct(rows);
    CleanRunReachesTarget(rows, policy, a, remote);
  }

  /** The remote's default route already carries the payload of the active or of the unset row. */
  predicate DefaultRouteMatched(policy: Policy, remote: RouteMap) {
    || InSync(Look(remote, DEFAULT_ROUTE_ID), DefaultRow(policy, ActiveRow), policy)
    || InSync(Look(remote, DEFAULT_ROUTE_ID), DefaultRow(policy, UnsetRow), policy)
  }

  /** Without a persisted default row the check compares the unset-status payload and the sync the active
      one, and the two agree exactly when the remote's default route matches neither. */
  lemma CheckAgreesWithSyncIff(rows: seq<RouteRow>, policy: Policy, remote: RouteMap)
    requires StrictlySorted(rows, RowId)
    ensures |Mismatched(DesiredRows(rows, policy), policy, remote)|
      == |Mismatched(PersistedRows(rows, policy), policy, remote)|
      <==> (DEFAULT_ROUTE_ID in RowIds(rows) || !DefaultRouteMatched(policy, remote))
  {
    hide InSync, Mismatched, Insert;
    if DEFAULT_ROUTE_ID !in RowIds(rows) {
      var unset, active := DefaultRow(policy, UnsetRow), DefaultRow(policy, ActiveRow);
      InsertKeepsStrict(active, rows);
      assert multiset([unset] + rows) == multiset{unset} + multiset(rows);
      assert multiset(rows + [unset]) == multiset([unset] + rows);
      MismatchedOfPermutation([unset] + rows, rows + [unset], policy, remote);
      MismatchedOfPermutation(Insert(active, rows, RowId), rows + [active], policy, remote);
      MismatchedOfAppend(rows, unset, policy, remote);
      MismatchedOfAppend(rows, active, policy, remote);
      MismatchedAreRows(rows, policy, remote);
      NoRouteMatchesBothStatuses(policy, Look(remote, DEFAULT_ROUTE_ID));
    }
  }

  lemma MismatchedAreRows(rows: seq<RouteRow>, policy: Policy, routes: RouteMap)
    ensures Mismatched(rows, policy, routes) <= RowIds(rows)
  {
    hide InSync;
  }

  lemma MismatchedOfPermutation(a: seq<RouteRow>, b: seq<RouteRow>, policy: Policy, routes: RouteMap)
    requires multiset(a) == multiset(b)
    ensures Mismatched(a, policy, routes) == Mismatched(b, policy, routes)
  {
    hide InSync;
    SameElements(a, b);
    forall id ensures id in Mismatched(a, policy, routes) <==> id in Mismatched(b, policy, routes) {
      if i :| 0 <= i < |a| && a[i].id == id && !InSync(Look(routes, id), a[i], policy) {
        assert a[i] in b;
      }
      if i :| 0 <= i < |b| && b[i].id == id && !InSync(Look(routes, id), b[i], policy) {
        assert b[i] in a;
      }
    }
  }

  lemma NoRouteMatchesBothStatuses(policy: Policy, current: Option<Route>)
    ensures !(InSync(current, DefaultRow(policy, ActiveRow), policy)
      && InSync(current, DefaultRow(policy, UnsetRow), policy))
  {
    var active, unset := Payload(DefaultRow(policy, ActiveRow), policy), Payload(DefaultRow(policy, UnsetRow), policy);
    assert "status" in active && "status" in unset;
    assert active["status"] == Json.Int(1) && unset["status"] == Json.Int(0);
  }

  /** The disagreement is real: with a fresh or restored, still empty table and a gateway that is synced
      already, the check reports one drifted route although a sync would put nothing. */
  lemma UnpersistedDefaultLooksDrifted(policy: Policy)
    ensures var active := DefaultRow(policy, ActiveRow);
      var remote: RouteMap := map[DEFAULT_ROUTE_ID := Payload(active, policy)];
      && |Mismatched(DesiredRows([], policy), policy, remote)| == 1
      && |Mismatched(PersistedRows([], policy), policy, remote)| == 0
  {
    hide Payload, InSync;
    var active, unset := DefaultRow(policy, ActiveRow), DefaultRow(policy, UnsetRow);
    var remote: RouteMap := map[DEFAULT_ROUTE_ID := Payload(active, policy)];
    MatchesItself(Payload(active, policy));
    DefaultInSync(policy);
    NoRouteMatchesBothStatuses(policy, Look(remote, DEFAULT_ROUTE_ID));
    MismatchedOfAppend([], unset, policy, remote);
    MismatchedOfAppend([], active, policy, remote);
    assert [] + [unset] == DesiredRows([], policy) && [] + [active] == PersistedRows([], policy);
    assert Mismatched([], policy, remote) == {};
  }

  lemma DefaultInSync(policy: Policy)
    ensures var active := DefaultRow(policy, ActiveRow);
      InSync(Look(map[DEFAULT_ROUTE_ID := Payload(active, policy)], DEFAULT_ROUTE_ID), active, policy)
  {
    hide Payload;
    MatchesItself(Payload(DefaultRow(policy, ActiveRow), policy));
  }
}
