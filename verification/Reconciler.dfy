/** The reconciler over its mutable parts: the APISIX admin API behind the client, and the route table
    with its sync status (src/grantora/apisix/reconciler.py). */
module Reconciler {
  import opened Prelude
  import opened Text
  import opened Routes
  import opened SyncRun
  import opened Convergence

  function RowId(row: RouteRow): string {
    row.id
  }

  /** The admin API as the client sees it: a map of routes, and the faults its next calls will meet.
      No one else writes to it during a run. */
  class ApisixAdmin {
    var routes: RouteMap
    var faults: seq<Fault>

    constructor (routes: RouteMap, faults: seq<Fault>)
      ensures this.routes == routes && this.faults == faults
    {
      this.routes, this.faults := routes, faults;
    }

    method GetRoute(id: RouteId) returns (r: Result<Option<Route>, Failure>)
      modifies this`faults
      ensures faults == Rest(old(faults))
      ensures r == if Next(old(faults)).NoFault? then Ok(Look(routes, id)) else Err(Next(old(faults)).failure)
    {
      var fault := Next(faults);
      faults := Rest(faults);
      r := if fault.NoFault? then Ok(Look(routes, id)) else Err(fault.failure);
    }

    /** The routes together with the order they are listed in, which the server chooses. */
    method ListRoutes() returns (r: Result<RouteMap, Failure>, order: seq<RouteId>)
      modifies this`faults
      ensures faults == Rest(old(faults))
      ensures r == if Next(old(faults)).NoFault? then Ok(routes) else Err(Next(old(faults)).failure)
      ensures NoDup(order) && Elems(order) == routes.Keys
    {
      var fault := Next(faults);
      faults := Rest(faults);
      r := if fault.NoFault? then Ok(routes) else Err(fault.failure);
      order := [];
      var unlisted := routes.Keys;
      while unlisted != {}
        invariant NoDup(order) && Elems(order) + unlisted == routes.Keys && Elems(order) !! unlisted
        decreases unlisted
      {
        var id :| id in unlisted;
        assert id !in Elems(order);
        order, unlisted := order + [id], unlisted - {id};
      }
    }

    method PutRoute(id: RouteId, route: Route) returns (r: Result<(), Failure>)
      modifies this
      ensures faults == Rest(old(faults))
      ensures routes == if Next(old(faults)).Lost? then old(routes) else old(routes)[id := route]
      ensures r == if Next(old(faults)).NoFault? then Ok(()) else Err(Next(old(faults)).failure)
    {
      var fault := Next(faults);
      faults := Rest(faults);
      if !fault.Lost? {
        routes := routes[id := route];
      }
      r := if fault.NoFault? then Ok(()) else Err(fault.failure);
    }

    /** Ok(false) is the 404 answer for a route that is not there. */
    method DeleteRoute(id: RouteId) returns (r: Result<bool, Failure>)
      modifies this
      ensures faults == Rest(old(faults))
      ensures routes == if Next(old(faults)).Lost? then old(routes) else old(routes) - {id}
      ensures r == if Next(old(faults)).NoFault? then Ok(id in old(routes)) else Err(Next(old(faults)).failure)
    {
      var fault := Next(faults);
      faults := Rest(faults);
      var present := id in routes;
      if !fault.Lost? {
        routes := routes - {id};
      }
      r := if fault.NoFault? then Ok(present) else Err(fault.failure);
    }
  }

  datatype SyncResult = SyncResult(ok: bool, checked: nat, changed: nat, errorCode: Option<string>,
    message: Option<string>)

  /** The result reported for a finished run; other exceptions get the generic code. */
  function ResultOf(checked: nat, run: Progress): SyncResult {
    match run.failed
    case None => SyncResult(true, checked, run.changed, None, None)
    case Some(AdminApi(code, message)) => SyncResult(false, checked, run.changed, Some(code), Some(message))
    case Some(Unexpected) =>
      SyncResult(false, checked, run.changed, Some("apisix_sync_failed"), Some("APISIX route reconciliation failed"))
  }

  /** The route table after ensure_default_runtime_route: the flushed default row has the default status. */
  function PersistedRows(rows: seq<RouteRow>, policy: Policy): seq<RouteRow> {
    if DEFAULT_ROUTE_ID in RowIds(rows) then rows
    else Insert(DefaultRow(policy, ActiveRow), rows, RowId)
  }

  /** The apisix_routes table, read in primary-key order, and the single apisix_sync_status row. */
  class RouteStore {
    var rows: seq<RouteRow>
    var syncStatus: Option<SyncResult>

    ghost predicate Valid()
      reads this
    {
      StrictlySorted(rows, RowId)
    }

    method EnsureDefaultRoute(policy: Policy)
      requires Valid()
      modifies this`rows
      ensures Valid() && rows == PersistedRows(old(rows), policy)
    {
      if DEFAULT_ROUTE_ID !in RowIds(rows) {
        InsertKeepsStrict(DefaultRow(policy, ActiveRow), rows);
        rows := Insert(DefaultRow(policy, ActiveRow), rows, RowId);
      }
    }
  }

  lemma SortedRowsAreDistinct(rows: seq<RouteRow>)
    requires StrictlySorted(rows, RowId)
    ensures DistinctRows(rows)
  {
    forall i, j | 0 <= i < j < |rows| ensures rows[i].id != rows[j].id {
      BeforeTotal(RowId(rows[i]), RowId(rows[j]));
    }
  }

  lemma InsertKeepsStrict(row: RouteRow, rows: seq<RouteRow>)
    requires StrictlySorted(rows, RowId) && row.id !in RowIds(rows)
    ensures StrictlySorted(Insert(row, rows, RowId), RowId)
    ensures multiset(Insert(row, rows, RowId)) == multiset(rows) + multiset{row}
  {
    hide Before, Insert;
    forall i, j | 0 <= i < j < |rows| ensures !Before(RowId(rows[j]), RowId(rows[i])) {
      BeforeTotal(RowId(rows[i]), RowId(rows[j]));
    }
    InsertCorrect(row, rows, RowId);
    var all := Insert(row, rows, RowId);
    SortedRowsAreDistinct(rows);
    assert multiset(rows + [row]) == multiset(all);
    DistinctKeysPermuted(rows + [row], all, RowId);
    forall i, j | 0 <= i < j < |all| ensures Before(RowId(all[i]), RowId(all[j])) {
      BeforeTotal(RowId(all[i]), RowId(all[j]));
    }
  }

  /** _load_current_routes */
  method LoadCurrentRoutes(rows: seq<RouteRow>, client: ApisixAdmin)
    returns (current: map<RouteId, Option<Route>>, failure: Option<Failure>)
    modifies client`faults
    ensures var p := Reads(|rows|, Start(client.routes, old(client.faults)));
      failure == p.failed && client.faults == p.tape
    ensures failure.None? ==> forall i :: 0 <= i < |rows| ==> (
      rows[i].id in current && current[rows[i].id] == Look(client.routes, rows[i].id))
  {
    hide Look;
    current := map[];
    ghost var start := Start(client.routes, client.faults);
    ghost var reading := start;
    for k := 0 to |rows|
      invariant Reads(|rows|, start) == Reads(|rows| - k, reading)
      invariant reading.tape == client.faults && reading.failed.None?
      invariant forall i :: 0 <= i < k ==> (
        rows[i].id in current && current[rows[i].id] == Look(client.routes, rows[i].id))
    {
      var r := client.GetRoute(rows[k].id);
      reading := ReadCall(reading);
      if r.Err? {
        ReadsStop(|rows| - k - 1, reading);
        return map[], Some(r.error);
      }
      current := current[rows[k].id := r.value];
    }
    return current, None;
  }

  /** The client is where a run in progress has left it, with nothing failed. */
  ghost predicate Stands(p: Progress, client: ApisixAdmin)
    reads client
  {
    client.routes == p.remote && client.faults == p.tape && p.failed.None? && !p.landed
  }

  /** The loop over the rows: one read (from `current` when preloaded) and at most one put each. */
  method PutRoutes(rows: seq<RouteRow>, policy: Policy, current: Option<map<RouteId, Option<Route>>>,
                   ghost snapshot: Option<RouteMap>, ghost before: Progress, client: ApisixAdmin)
    returns (changed: nat, failure: Option<Failure>, ghost end: Progress)
    requires current.Some? <==> snapshot.Some?
    requires current.Some? ==> forall i :: 0 <= i < |rows| ==> (
      rows[i].id in current.value && current.value[rows[i].id] == Look(snapshot.value, rows[i].id))
    requires Stands(before, client) && before.changed == 0
    modifies client
    ensures end == PutPhase(rows, 0, policy, snapshot, before)
    ensures failure.None? ==> !end.landed
    ensures client.routes == end.remote && client.faults == end.tape && changed == end.changed && failure == end.failed
  {
    hide Look, InSync;
    changed, failure := 0, None;
    end := before;
    for k := 0 to |rows|
      invariant PutPhase(rows, 0, policy, snapshot, before) == PutPhase(rows, k, policy, snapshot, end)
      invariant client.routes == end.remote && client.faults == end.tape && changed == end.changed
      invariant failure.None? && end.failed.None? && !end.landed
    {
      var row := rows[k];
      var found: Option<Route>;
      end := PutStep(row, policy, snapshot, end);
      if current.Some? {
        found := current.value[row.id];
      } else {
        var r := client.GetRoute(row.id);
        if r.Err? {
          return changed, Some(r.error), end;
        }
        found := r.value;
      }
      if !InSync(found, row, policy) {
        var put := client.PutRoute(row.id, Payload(row, policy));
        if put.Err? {
          return changed, Some(put.error), end;
        }
        changed := changed + 1;
      }
    }
  }

  /** The loop over the listed routes: delete those that are managed and wanted by no row. */
  method DeleteStaleRoutes(rows: seq<RouteRow>, listed: RouteMap, order: seq<RouteId>, changedBefore: nat,
                           ghost before: Progress, client: ApisixAdmin)
    returns (changed: nat, failure: Option<Failure>, ghost end: Progress)
    requires Elems(order) == listed.Keys
    requires Stands(before, client) && before.changed == changedBefore
    modifies client
    ensures end == DeletePhase(rows, listed, order, 0, before)
    ensures client.routes == end.remote && client.faults == end.tape && changed == end.changed && failure == end.failed
  {
    changed, failure := changedBefore, None;
    end := before;
    for k := 0 to |order|
      invariant DeletePhase(rows, listed, order, 0, before) == DeletePhase(rows, listed, order, k, end)
      invariant client.routes == end.remote && client.faults == end.tape && changed == end.changed
      invariant failure.None? && end.failed.None?
    {
      var id := order[k];
      end := DeleteStep(rows, listed, id, end);
      assert id in Elems(order);
      if id !in RowIds(rows) && IsManaged(listed[id]) {
        var deleted := client.DeleteRoute(id);
        if deleted.Err? {
          return changed, Some(deleted.error), end;
        }
        if deleted.value {
          changed := changed + 1;
        }
      }
    }
  }

  /** The try block of reconcile_apisix_routes. */
  method SyncRoutes(rows: seq<RouteRow>, policy: Policy, failClosed: bool, client: ApisixAdmin)
    returns (changed: nat, failure: Option<Failure>, ghost order: seq<RouteId>)
    modifies client
    ensures Covers(rows, old(client.routes), order)
    ensures var run := Run(rows, policy, failClosed, order, old(client.routes), old(client.faults));
      client.routes == run.remote && client.faults == run.tape && changed == run.changed && failure == run.failed
  {
    changed, failure, order := 0, None, SomeOrder(client.routes);
    ghost var start := Start(client.routes, client.faults);
    ghost var end: Progress;
    if failClosed {
      ReadsSplit(|rows|, start);
      ReadsChangeNothing(|rows|, start);
      var current;
      current, failure := LoadCurrentRoutes(rows, client);
      if failure.Some? {
        return;
      }
      ghost var snapshot := client.routes;
      var listing, listOrder := client.ListRoutes();
      if listing.Err? {
        return 0, Some(listing.error), order;
      }
      order := listOrder;
      changed, failure, end := PutRoutes(rows, policy, Some(current), Some(snapshot), Reads(|rows| + 1, start), client);
      if failure.Some? {
        return;
      }
      changed, failure, end := DeleteStaleRoutes(rows, listing.value, listOrder, changed, end, client);
    } else {
      changed, failure, end := PutRoutes(rows, policy, None, None, start, client);
      if failure.Some? {
        return;
      }
      PutPhaseKeepsStale(rows, 0, policy, start);
      var listing, listOrder := client.ListRoutes();
      if listing.Err? {
        return changed, Some(listing.error), order;
      }
      order := listOrder;
      changed, failure, end := DeleteStaleRoutes(rows, listing.value, listOrder, changed, ReadCall(end), client);
    }
  }

  /** Some listing of the routes; it plays no part when the run fails before listing. */
  ghost function SomeOrder(routes: RouteMap): (order: seq<RouteId>)
    ensures forall id :: id in routes ==> id in order
    decreases routes.Keys
  {
    if routes == map[] then []
    else
      var id :| id in routes;
      assert (routes - {id}).Keys < routes.Keys;
      [id] + SomeOrder(routes - {id})
  }

  lemma {:induction false} ReadsSplit(n: nat, p: Progress)
    ensures Reads(n + 1, p) == if Reads(n, p).failed.Some? then Reads(n, p) else ReadCall(Reads(n, p))
  {
    if n > 0 && p.failed.None? {
      ReadsSplit(n - 1, ReadCall(p));
    }
  }

  /** Puts go to row ids only, so they leave the stale routes as they were. */
  lemma {:induction false} PutPhaseKeepsStale(rows: seq<RouteRow>, k: nat, policy: Policy, p: Progress)
    requires k <= |rows|
    ensures Stale(rows, PutPhase(rows, k, policy, None, p).remote) == Stale(rows, p.remote)
    decreases |rows| - k
  {
    hide Payload, InSync;
    if k < |rows| && p.failed.None? {
      var q := PutStep(rows[k], policy, None, p);
      PutPhaseKeepsStale(rows, k + 1, policy, q);
      StaleUnchanged(rows, p.remote, q.remote);
    }
  }

  /** reconcile_apisix_routes. The remote and the recorded status are those of one Run over the persisted
      rows; an ok result means that every row's route serves the row, no drift is left and `changed` is the
      drift there was. */
  method Reconcile(store: RouteStore, policy: Policy, failClosed: bool, client: ApisixAdmin)
    returns (result: SyncResult, ghost order: seq<RouteId>)
    requires store.Valid()
    modifies store, client
    ensures store.Valid() && store.rows == PersistedRows(old(store.rows), policy)
    ensures store.syncStatus == Some(result)
    ensures Covers(store.rows, old(client.routes), order)
    ensures var run := Run(store.rows, policy, failClosed, order, old(client.routes), old(client.faults));
      && client.routes == run.remote && client.faults == run.tape && result == ResultOf(|store.rows|, run)
      && (result.ok <==> run.failed.None?) && (result.ok ==> result.errorCode.None? && result.message.None?)
      && (run.failed.Some? ==>
            result.errorCode
              == Some(if run.failed.value.AdminApi? then run.failed.value.code else "apisix_sync_failed"))
    ensures result.checked == |store.rows|
    ensures result.ok ==> (
      && ReachesTarget(store.rows, policy, old(client.routes), client.routes)
      && Drift(store.rows, policy, client.routes) == 0
      && result.changed == Drift(store.rows, policy, old(client.routes))
      && AllServed(store.rows, policy, client.routes))
    ensures !result.ok ==> (
      Drift(store.rows, policy, old(client.routes)) - 1 <= Drift(store.rows, policy, client.routes) + result.changed
        <= Drift(store.rows, policy, old(client.routes)))
  {
    hide Run, Drift, ReachesTarget, Covers, PersistedRows, AllServed;
    store.EnsureDefaultRoute(policy);
    SortedRowsAreDistinct(store.rows);
    var changed, failure;
    changed, failure, order := SyncRoutes(store.rows, policy, failClosed, client);
    result := match failure
      case None => SyncResult(true, |store.rows|, changed, None, None)
      case Some(AdminApi(code, message)) => SyncResult(false, |store.rows|, changed, Some(code), Some(message))
      case Some(Unexpected) =>
        SyncResult(false, |store.rows|, changed, Some("apisix_sync_failed"),
          Some("APISIX route reconciliation failed"));
    store.syncStatus := Some(result);
    ghost var a := Attempt(failClosed, order, old(client.faults));
    AnyRunCountsItsDrop(store.rows, policy, a, old(client.routes));
    if result.ok {
      CleanRunReachesTarget(store.rows, policy, a, old(client.routes));
      CleanRunServes(store.rows, policy, a, old(client.routes));
    }
  }
}
