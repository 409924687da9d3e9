/** What reconciliation guarantees over whole runs and histories of interrupted runs. */
module Convergence {
  import opened Prelude
  import opened Routes
  import opened SyncRun

  /** One run: its mode, the order the server lists routes in, and the faults it meets. */
  datatype Attempt = Attempt(failClosed: bool, order: seq<RouteId>, tape: seq<Fault>)

  function RunOf(rows: seq<RouteRow>, policy: Policy, a: Attempt, remote: RouteMap): Progress {
    Run(rows, policy, a.failClosed, a.order, remote, a.tape)
  }

  /** The listing shows every stale route. A server's listing names every route it holds. */
  ghost predicate Covers(rows: seq<RouteRow>, remote: RouteMap, order: seq<RouteId>) {
    forall id :: id in Stale(rows, remote) ==> id in order
  }

  ghost predicate Clean(rows: seq<RouteRow>, policy: Policy, a: Attempt, remote: RouteMap) {
    RunOf(rows, policy, a, remote).failed.None? && Covers(rows, remote, a.order)
  }

  /** The remote is what the rows make of `from`: desired ids match, stale managed ids are gone,
      everything else is as it was. */
  ghost predicate ReachesTarget(rows: seq<RouteRow>, policy: Policy, from: RouteMap, to: RouteMap) {
    forall id :: Look(to, id) == TargetAt(rows, policy, id, Look(from, id))
  }

  /** A run reported ok ends exactly in the target, with no drift left, having changed as many routes as had drifted. */
  lemma CleanRunReachesTarget(rows: seq<RouteRow>, policy: Policy, a: Attempt, remote: RouteMap)
    requires DistinctRows(rows) && Clean(rows, policy, a, remote)
    ensures var q := RunOf(rows, policy, a, remote);
      && ReachesTarget(rows, policy, remote, q.remote)
      && Drift(rows, policy, q.remote) == 0
      && q.changed == Drift(rows, policy, remote)
  {
    hide Drift, Run, InSync, Payload, IsManaged;
    var q := RunOf(rows, policy, a, remote);
    RunTracks(rows, policy, a.failClosed, a.order, remote, a.tape);
    forall id ensures Look(q.remote, id) == TargetAt(rows, policy, id, Look(remote, id)) {
      assert Moved(rows, policy, remote, q.remote, id);
      RowForCorrect(rows, id);
      if RowFor(rows, id).Some? {
        var i :| 0 <= i < |rows| && rows[i] == RowFor(rows, id).value;
        assert InSync(Look(q.remote, rows[i].id), rows[i], policy);
      }
    }
    TargetHasNoDrift(rows, policy, remote, q.remote);
  }

  /** After a run reported ok every row's route is there and serves the row, field by field. */
  lemma CleanRunServes(rows: seq<RouteRow>, policy: Policy, a: Attempt, remote: RouteMap)
    requires DistinctRows(rows) && Clean(rows, policy, a, remote)
    ensures AllServed(rows, policy, RunOf(rows, policy, a, remote).remote)
  {
    hide Run, Payload, Serves, Matches;
    CleanRunReachesTarget(rows, policy, a, remote);
    NoDriftServes(rows, policy, RunOf(rows, policy, a, remote).remote);
  }

  ghost predicate AllServed(rows: seq<RouteRow>, policy: Policy, routes: RouteMap) {
    forall i :: 0 <= i < |rows| ==> rows[i].id in routes && Serves(routes[rows[i].id], rows[i], policy)
  }

  lemma NoDriftServes(rows: seq<RouteRow>, policy: Policy, routes: RouteMap)
    ensures AllServed(rows, policy, routes) <==> Mismatched(rows, policy, routes) == {}
    ensures Drift(rows, policy, routes) == 0 ==> AllServed(rows, policy, routes)
  {
    hide Payload, Serves, Matches;
    forall i | 0 <= i < |rows|
      ensures InSync(Look(routes, rows[i].id), rows[i], policy)
        <==> rows[i].id in routes && Serves(routes[rows[i].id], rows[i], policy)
    {
      if rows[i].id in routes { InSyncIffServes(routes[rows[i].id], rows[i], policy); }
    }
    if !AllServed(rows, policy, routes) {
      var i :| 0 <= i < |rows| && !(rows[i].id in routes && Serves(routes[rows[i].id], rows[i], policy));
      assert rows[i].id in Mismatched(rows, policy, routes);
    }
  }

  lemma TargetHasNoDrift(rows: seq<RouteRow>, policy: Policy, from: RouteMap, to: RouteMap)
    requires DistinctRows(rows) && ReachesTarget(rows, policy, from, to)
    ensures Drift(rows, policy, to) == 0
  {
    hide TargetAt, Look, Dirty, Drift;
    DriftCountsDirty(rows, policy, to);
    forall id ensures id !in Dirty(rows, policy, to) {
      DirtyIffOffTarget(rows, policy, to, id);
      TargetIsStable(rows, policy, id, Look(from, id));
    }
    assert Dirty(rows, policy, to) == {};
  }

  /** The failing call took effect: its fault is Landed, and it is a put or a delete of a present route. */
  predicate LostAWrite(a: Attempt, trace: seq<ClientCall>) {
    trace != [] && FaultAt(a.tape, |trace| - 1).Landed? && Effective(trace[|trace| - 1])
  }

  /** Interrupted or not, a run's count is the drop in drift, less one exactly when it failed at a call whose
      fault is Landed and which is a put or a delete of a present route. A run fails exactly when one of
      its calls meets a fault, and that call is its last. */
  lemma AnyRunCountsItsDrop(rows: seq<RouteRow>, policy: Policy, a: Attempt, remote: RouteMap)
    requires DistinctRows(rows)
    ensures var q := RunOf(rows, policy, a, remote);
      && q.changed
         == Drift(rows, policy, remote) - Drift(rows, policy, q.remote) - (if LostAWrite(a, q.trace) then 1 else 0)
      && (forall i :: 0 <= i < |q.trace| - 1 ==> FaultAt(a.tape, i).NoFault?)
      && (q.failed.Some? <==> q.trace != [] && !FaultAt(a.tape, |q.trace| - 1).NoFault?)
  {
    hide Drift, Run, InSync, Moved, Effective;
    RunTracks(rows, policy, a.failClosed, a.order, remote, a.tape);
    RunTraced(rows, policy, a.failClosed, a.order, remote, a.tape);
  }

  /** A put that lands although its call failed repairs the route and is not counted. */
  lemma LandedWriteIsNotCounted(row: RouteRow, policy: Policy, failure: Failure)
    ensures var q := RunOf([row], policy, Attempt(false, [], [NoFault, Landed(failure)]), map[]);
      && q.trace == [Read, Put(row.id)] && q.changed == 0
      && Drift([row], policy, map[]) == 1 && Drift([row], policy, q.remote) == 0
  {
    hide Payload, Matches;
    var remote: RouteMap := map[];
    var a := Attempt(false, [], [NoFault, Landed(failure)]);
    assert a.tape[1..] == [Landed(failure)];
    var read := ReadCall(Start(remote, a.tape));
    var put := PutCall(read, row.id, Payload(row, policy));
    assert PutStep(row, policy, None, Start(remote, a.tape)) == put;
    assert PutPhase([row], 1, policy, None, put) == put;
    assert RunOf([row], policy, a, remote) == put;
    MatchesItself(Payload(row, policy));
    assert RowIds([row]) == {row.id} by { assert [row][0].id in RowIds([row]); }
    assert Mismatched([row], policy, remote) == {row.id} by {
      assert !InSync(Look(remote, [row][0].id), [row][0], policy);
    }
    assert Stale([row], remote) == {} && Stale([row], put.remote) == {};
    assert Mismatched([row], policy, put.remote) == {};
  }

  /** No run, however it fails, changes what the rows make of the remote. */
  lemma AnyRunKeepsTheTarget(rows: seq<RouteRow>, policy: Policy, a: Attempt, remote: RouteMap, id: RouteId)
    requires DistinctRows(rows)
    ensures TargetAt(rows, policy, id, Look(RunOf(rows, policy, a, remote).remote, id))
      == TargetAt(rows, policy, id, Look(remote, id))
  {
    hide TargetAt, Look, Run, Drift;
    RunTracks(rows, policy, a.failClosed, a.order, remote, a.tape);
    assert Moved(rows, policy, remote, RunOf(rows, policy, a, remote).remote, id);
    TargetIsStable(rows, policy, id, Look(remote, id));
  }

  /** The remote after a history of runs, each interrupted anywhere or not at all. */
  function After(rows: seq<RouteRow>, policy: Policy, attempts: seq<Attempt>, remote: RouteMap): RouteMap {
    if attempts == [] then remote
    else After(rows, policy, attempts[1..], RunOf(rows, policy, attempts[0], remote).remote)
  }

  lemma {:induction false} HistoryKeepsTheTarget(rows: seq<RouteRow>, policy: Policy, attempts: seq<Attempt>,
          remote: RouteMap, id: RouteId)
    requires DistinctRows(rows)
    ensures TargetAt(rows, policy, id, Look(After(rows, policy, attempts, remote), id))
      == TargetAt(rows, policy, id, Look(remote, id))
  {
    hide TargetAt, Look, Run;
    if attempts != [] {
      AnyRunKeepsTheTarget(rows, policy, attempts[0], remote, id);
      HistoryKeepsTheTarget(rows, policy, attempts[1..], RunOf(rows, policy, attempts[0], remote).remote, id);
    }
  }

  /** Convergence: any history of interrupted runs followed by one clean run ends in exactly the remote
      that a single uninterrupted run, in either mode, reaches from the start. */
  lemma ConvergesAfterFailures(rows: seq<RouteRow>, policy: Policy, attempts: seq<Attempt>, last: Attempt,
                               single: Attempt, remote: RouteMap)
    requires DistinctRows(rows)
    requires Clean(rows, policy, last, After(rows, policy, attempts, remote))
    requires Clean(rows, policy, single, remote)
    ensures RunOf(rows, policy, last, After(rows, policy, attempts, remote)).remote
      == RunOf(rows, policy, single, remote).remote
    ensures ReachesTarget(rows, policy, remote, RunOf(rows, policy, single, remote).remote)
  {
    hide TargetAt, Run, After, Drift, Covers;
    var middle := After(rows, policy, attempts, remote);
    var a, b := RunOf(rows, policy, last, middle).remote, RunOf(rows, policy, single, remote).remote;
    CleanRunReachesTarget(rows, policy, last, middle);
    CleanRunReachesTarget(rows, policy, single, remote);
    forall id ensures Look(a, id) == Look(b, id) {
      HistoryKeepsTheTarget(rows, policy, attempts, remote, id);
    }
    SameLooksSameMap(a, b);
  }

  lemma SameLooksSameMap(a: RouteMap, b: RouteMap)
    requires forall id :: Look(a, id) == Look(b, id)
    ensures a == b
  {
    assert forall id :: id in a <==> Look(a, id).Some?;
    assert forall id :: id in b <==> Look(b, id).Some?;
    assert a.Keys == b.Keys;
    forall id | id in a ensures a[id] == b[id] {
      assert Look(a, id) == Look(b, id);
    }
  }

  /** Without failures the two modes agree on the final map and on the count, although one lists the
      routes before its puts and the other after. */
  lemma ModesAgree(rows: seq<RouteRow>, policy: Policy, closed: Attempt, open: Attempt, remote: RouteMap)
    requires DistinctRows(rows) && closed.failClosed && !open.failClosed
    requires Clean(rows, policy, closed, remote) && Clean(rows, policy, open, remote)
    ensures RunOf(rows, policy, closed, remote).remote == RunOf(rows, policy, open, remote).remote
    ensures RunOf(rows, policy, closed, remote).changed == RunOf(rows, policy, open, remote).changed
  {
    hide Run, Drift, ReachesTarget, Covers;
    ConvergesAfterFailures(rows, policy, [], open, closed, remote);
    CleanRunReachesTarget(rows, policy, closed, remote);
    CleanRunReachesTarget(rows, policy, open, remote);
  }

  /** Once there is no drift a run writes nothing, whatever its mode, order and faults. */
  lemma NoDriftNoWrites(rows: seq<RouteRow>, policy: Policy, a: Attempt, remote: RouteMap)
    requires DistinctRows(rows) && Drift(rows, policy, remote) == 0
    ensures var q := RunOf(rows, policy, a, remote); q.remote == remote && q.changed == 0 && !q.landed
  {
    hide Run, TargetAt, Drift, Dirty;
    var q := RunOf(rows, policy, a, remote);
    RunTracks(rows, policy, a.failClosed, a.order, remote, a.tape);
    DriftCountsDirty(rows, policy, remote);
    forall id ensures Look(q.remote, id) == Look(remote, id) {
      assert Moved(rows, policy, remote, q.remote, id);
      DirtyIffOffTarget(rows, policy, remote, id);
    }
    SameLooksSameMap(q.remote, remote);
  }

  /** The run after a clean one makes no writes. */
  lemma RunAfterCleanRunWritesNothing(rows: seq<RouteRow>, policy: Policy, a: Attempt, next: Attempt, remote: RouteMap)
    requires DistinctRows(rows) && Clean(rows, policy, a, remote)
    ensures var done := RunOf(rows, policy, a, remote).remote;
      RunOf(rows, policy, next, done).remote == done && RunOf(rows, policy, next, done).changed == 0
  {
    hide Run, Drift, Covers, ReachesTarget;
    CleanRunReachesTarget(rows, policy, a, remote);
    NoDriftNoWrites(rows, policy, next, RunOf(rows, policy, a, remote).remote);
  }

  ghost predicate Quiet(p: Progress) {
    p.failed.None? && forall i :: 0 <= i < |p.tape| ==> p.tape[i].NoFault?
  }

  lemma {:induction false} QuietReads(n: nat, p: Progress)
    requires Quiet(p)
    ensures Quiet(Reads(n, p))
  {
    if n > 0 { QuietReads(n - 1, ReadCall(p)); }
  }

  lemma {:induction false} QuietPuts(rows: seq<RouteRow>, k: nat, policy: Policy, snapshot: Option<RouteMap>,
                                     p: Progress)
    requires Quiet(p) && k <= |rows|
    ensures Quiet(PutPhase(rows, k, policy, snapshot, p))
    decreases |rows| - k
  {
    hide InSync, Payload;
    if k < |rows| { QuietPuts(rows, k + 1, policy, snapshot, PutStep(rows[k], policy, snapshot, p)); }
  }

  lemma {:induction false} QuietDeletes(rows: seq<RouteRow>, listed: RouteMap, order: seq<RouteId>, k: nat, p: Progress)
    requires Quiet(p) && k <= |order|
    ensures Quiet(DeletePhase(rows, listed, order, k, p))
    decreases |order| - k
  {
    hide IsManaged;
    if k < |order| { QuietDeletes(rows, listed, order, k + 1, DeleteStep(rows, listed, order[k], p)); }
  }

  /** A run that meets no fault is reported ok, in either mode. */
  lemma RunWithoutFaultsIsOk(rows: seq<RouteRow>, policy: Policy, a: Attempt, remote: RouteMap)
    requires forall i :: 0 <= i < |a.tape| ==> a.tape[i].NoFault?
    ensures RunOf(rows, policy, a, remote).failed.None?
  {
    hide PutPhase, DeletePhase, Reads;
    var start := Start(remote, a.tape);
    if a.failClosed {
      QuietReads(|rows| + 1, start);
      var loaded := Reads(|rows| + 1, start);
      QuietPuts(rows, 0, policy, Some(loaded.remote), loaded);
      QuietDeletes(rows, loaded.remote, a.order, 0, PutPhase(rows, 0, policy, Some(loaded.remote), loaded));
    } else {
      QuietPuts(rows, 0, policy, None, start);
      var listed := ReadCall(PutPhase(rows, 0, policy, None, start));
      QuietDeletes(rows, listed.remote, a.order, 0, listed);
    }
  }

  // ----- Fail-closed -----

  /** One of the next n calls meets a fault. */
  ghost predicate FaultWithin(tape: seq<Fault>, n: nat) {
    exists i :: 0 <= i < n && i < |tape| && !tape[i].NoFault?
  }

  lemma FaultWithinStep(tape: seq<Fault>, n: nat)
    ensures FaultWithin(tape, n + 1) <==> !Next(tape).NoFault? || FaultWithin(Rest(tape), n)
  {
    if i :| 0 <= i < n + 1 && i < |tape| && !tape[i].NoFault? {
      if i > 0 { assert !Rest(tape)[i - 1].NoFault?; }
    }
    if i :| 0 <= i < n && i < |Rest(tape)| && !Rest(tape)[i].NoFault? {
      assert !tape[i + 1].NoFault?;
    }
  }

  lemma {:induction false} ReadsFailIff(n: nat, p: Progress)
    requires p.failed.None?
    ensures Reads(n, p).failed.Some? <==> FaultWithin(p.tape, n)
    ensures Reads(n, p).failed.None? ==> Reads(n, p).tape == if n <= |p.tape| then p.tape[n..] else []
  {
    if n > 0 {
      hide FaultWithin;
      var q := ReadCall(p);
      FaultWithinStep(p.tape, n - 1);
      if q.failed.None? { ReadsFailIff(n - 1, q); } else { ReadsStop(n - 1, q); }
    }
  }

  lemma ReadsStop(n: nat, p: Progress)
    requires p.failed.Some?
    ensures Reads(n, p) == p
  {
  }

  /** In fail-closed mode the first get of every row and the listing come first: if one of these
      |rows| + 1 calls fails, nothing was written. */
  lemma FailedPreloadWritesNothing(rows: seq<RouteRow>, policy: Policy, order: seq<RouteId>, remote: RouteMap,
                                   tape: seq<Fault>, i: nat)
    requires i <= |rows| && i < |tape| && !tape[i].NoFault?
    ensures var q := Run(rows, policy, true, order, remote, tape);
      q.failed.Some? && q.remote == remote && q.changed == 0
  {
    ReadsFailIff(|rows| + 1, Start(remote, tape));
    ReadsChangeNothing(|rows| + 1, Start(remote, tape));
  }

  // ----- Ownership, while the rows change between runs -----

  /** A run against the rows and settings of its time. */
  datatype Epoch = Epoch(rows: seq<RouteRow>, policy: Policy, attempt: Attempt)

  function RunEpoch(e: Epoch, remote: RouteMap): RouteMap {
    RunOf(e.rows, e.policy, e.attempt, remote).remote
  }

  function AfterEpochs(epochs: seq<Epoch>, remote: RouteMap): RouteMap {
    if epochs == [] then remote else AfterEpochs(epochs[1..], RunEpoch(epochs[0], remote))
  }

  ghost predicate Owned(routes: RouteMap, id: RouteId) {
    id in routes ==> IsManaged(routes[id])
  }

  /** A run only ever leaves a route as it found it, removes it, or leaves it labelled as managed. */
  lemma RunOwnsWhatItChanges(e: Epoch, remote: RouteMap, id: RouteId)
    requires DistinctRows(e.rows)
    ensures Look(RunEpoch(e, remote), id) == Look(remote, id) || Owned(RunEpoch(e, remote), id)
    ensures Owned(remote, id) ==> Owned(RunEpoch(e, remote), id)
    ensures RunOf(e.rows, e.policy, e.attempt, remote).failed.None? && id in RowIds(e.rows) ==>
      Owned(RunEpoch(e, remote), id)
  {
    hide Run, Payload, IsManaged, Drift, Matches;
    RunTracks(e.rows, e.policy, e.attempt.failClosed, e.attempt.order, remote, e.attempt.tape);
    assert Moved(e.rows, e.policy, remote, RunEpoch(e, remote), id);
    RowForCorrect(e.rows, id);
    if RowFor(e.rows, id).Some? {
      var row := RowFor(e.rows, id).value;
      PayloadIsManaged(row, e.policy);
      var i :| 0 <= i < |e.rows| && e.rows[i] == row;
      if InSync(Look(RunEpoch(e, remote), id), row, e.policy) {
        MatchingRouteIsManaged(RunEpoch(e, remote)[id], row, e.policy);
      }
    }
  }

  lemma {:induction false} EpochsKeepOwnership(epochs: seq<Epoch>, remote: RouteMap, id: RouteId)
    requires forall e :: e in epochs ==> DistinctRows(e.rows)
    requires Owned(remote, id)
    ensures Owned(AfterEpochs(epochs, remote), id)
  {
    hide Run, Owned;
    if epochs != [] {
      RunOwnsWhatItChanges(epochs[0], remote, id);
      EpochsKeepOwnership(epochs[1..], RunEpoch(epochs[0], remote), id);
    }
  }

  /** A route that some run put or confirmed for a row is gone after the next clean run without the row,
      whatever failed or was edited in between. */
  lemma RemovedRowDisappears(put: Epoch, between: seq<Epoch>, last: Epoch, remote: RouteMap, id: RouteId)
    requires DistinctRows(put.rows) && DistinctRows(last.rows) && forall e :: e in between ==> DistinctRows(e.rows)
    requires id in RowIds(put.rows) && id !in RowIds(last.rows)
    requires RunOf(put.rows, put.policy, put.attempt, remote).failed.None?
      || Look(RunEpoch(put, remote), id) != Look(remote, id)
    requires Clean(last.rows, last.policy, last.attempt, AfterEpochs(between, RunEpoch(put, remote)))
    ensures id !in RunEpoch(last, AfterEpochs(between, RunEpoch(put, remote)))
  {
    hide Run, Drift, Payload, IsManaged, AfterEpochs, Covers;
    RunOwnsWhatItChanges(put, remote, id);
    EpochsKeepOwnership(between, RunEpoch(put, remote), id);
    var middle := AfterEpochs(between, RunEpoch(put, remote));
    CleanRunReachesTarget(last.rows, last.policy, last.attempt, middle);
    RowForCorrect(last.rows, id);
    assert Look(RunEpoch(last, middle), id) == TargetAt(last.rows, last.policy, id, Look(middle, id));
  }

  /** An unlabelled route whose id no row ever uses is untouched by every run, failed or not. */
  lemma {:induction false} ForeignRouteUntouched(epochs: seq<Epoch>, remote: RouteMap, id: RouteId)
    requires forall e :: e in epochs ==> DistinctRows(e.rows) && id !in RowIds(e.rows)
    requires id in remote ==> !IsManaged(remote[id])
    ensures Look(AfterEpochs(epochs, remote), id) == Look(remote, id)
  {
    hide Run, Drift, Payload, IsManaged;
    if epochs != [] {
      var e := epochs[0];
      assert e in epochs;
      RunTracks(e.rows, e.policy, e.attempt.failClosed, e.attempt.order, remote, e.attempt.tape);
      assert Moved(e.rows, e.policy, remote, RunEpoch(e, remote), id);
      RowForCorrect(e.rows, id);
      assert Look(RunEpoch(e, remote), id) == Look(remote, id);
      ForeignRouteUntouched(epochs[1..], RunEpoch(e, remote), id);
    }
  }
}
