/** One reconciliation run as a sequence of client calls, each of which may fail, and what any run keeps. */
module SyncRun {
  import opened Prelude
  import opened Routes

  /** How a client call fails: the client's own error, or any other exception. */
  datatype Failure = AdminApi(code: string, message: string) | Unexpected

  /** What happens to one call: it works, it is lost before taking effect, or it takes effect and
      still fails (a timeout or an unreadable answer after the write). */
  datatype Fault = NoFault | Lost(failure: Failure) | Landed(failure: Failure)

  function Next(tape: seq<Fault>): Fault { if tape == [] then NoFault else tape[0] }
  function Rest(tape: seq<Fault>): seq<Fault> { if tape == [] then [] else tape[1..] }

  /** A call a run makes: a get or a listing, a put, or a delete of a route that is there or is not. */
  datatype ClientCall = Read | Put(id: RouteId) | Delete(id: RouteId, present: bool)

  /** A run in progress, with the calls made so far. `landed` records that the failing call changed the
      remote although it raised. */
  datatype Progress = Progress(
    remote: RouteMap, changed: nat, tape: seq<Fault>, failed: Option<Failure>, landed: bool, trace: seq<ClientCall>)

  function Start(remote: RouteMap, tape: seq<Fault>): Progress {
    Progress(remote, 0, tape, None, false, [])
  }

  /** The state after a call has taken its fault from the tape. */
  function Calling(p: Progress, call: ClientCall): Progress {
    p.(tape := Rest(p.tape), trace := p.trace + [call])
  }

  function ReadCall(p: Progress): Progress {
    var q := Calling(p, Read);
    match Next(p.tape)
    case NoFault => q
    case Lost(e) => q.(failed := Some(e))
    case Landed(e) => q.(failed := Some(e))
  }

  function PutCall(p: Progress, id: RouteId, route: Route): Progress {
    var q := Calling(p, Put(id));
    match Next(p.tape)
    case NoFault => q.(remote := p.remote[id := route], changed := p.changed + 1)
    case Lost(e) => q.(failed := Some(e))
    case Landed(e) => q.(remote := p.remote[id := route], failed := Some(e), landed := true)
  }

  /** A delete counts only when the route was there. */
  function DeleteCall(p: Progress, id: RouteId): Progress {
    var q := Calling(p, Delete(id, id in p.remote));
    match Next(p.tape)
    case NoFault => q.(remote := p.remote - {id}, changed := p.changed + if id in p.remote then 1 else 0)
    case Lost(e) => q.(failed := Some(e))
    case Landed(e) => q.(remote := p.remote - {id}, failed := Some(e), landed := id in p.remote)
  }

  /** n reads in a row, stopping at the first failure. */
  function Reads(n: nat, p: Progress): Progress {
    if n == 0 || p.failed.Some? then p else Reads(n - 1, ReadCall(p))
  }

  /** One row: read the current route (from the preloaded snapshot when there is one) and put if it differs. */
  function PutStep(row: RouteRow, policy: Policy, snapshot: Option<RouteMap>, p: Progress): Progress {
    var read := if snapshot.Some? then p else ReadCall(p);
    if read.failed.Some? then read
    else if InSync(Look(if snapshot.Some? then snapshot.value else read.remote, row.id), row, policy) then read
    else PutCall(read, row.id, Payload(row, policy))
  }

  function PutPhase(rows: seq<RouteRow>, k: nat, policy: Policy, snapshot: Option<RouteMap>, p: Progress): Progress
    requires k <= |rows|
    decreases |rows| - k
  {
    if k == |rows| || p.failed.Some? then p
    else PutPhase(rows, k + 1, policy, snapshot, PutStep(rows[k], policy, snapshot, p))
  }

  function DeleteStep(rows: seq<RouteRow>, listed: RouteMap, id: RouteId, p: Progress): Progress {
    if id in listed && id !in RowIds(rows) && IsManaged(listed[id]) then DeleteCall(p, id) else p
  }

  /** The listed routes are visited in the server's order, which is any sequence of ids. */
  function DeletePhase(rows: seq<RouteRow>, listed: RouteMap, order: seq<RouteId>, k: nat, p: Progress): Progress
    requires k <= |order|
    decreases |order| - k
  {
    if k == |order| || p.failed.Some? then p
    else DeletePhase(rows, listed, order, k + 1, DeleteStep(rows, listed, order[k], p))
  }

  /** The calls of reconcile_apisix_routes. */
  function Run(rows: seq<RouteRow>, policy: Policy, failClosed: bool, order: seq<RouteId>, remote: RouteMap,
               tape: seq<Fault>): Progress {
    if failClosed then
      var loaded := Reads(|rows| + 1, Start(remote, tape));
      if loaded.failed.Some? then loaded
      else DeletePhase(rows, loaded.remote, order, 0, PutPhase(rows, 0, policy, Some(loaded.remote), loaded))
    else
      var written := PutPhase(rows, 0, policy, None, Start(remote, tape));
      if written.failed.Some? then written
      else
        var listed := ReadCall(written);
        if listed.failed.Some? then listed
        else DeletePhase(rows, listed.remote, order, 0, listed)
  }

  // ----- Every step moves routes to their target and lowers the drift by what it wrote -----

  /** Reachable from `from`: each id is as it was or in its target state, and the drift has dropped by
      the writes counted plus the one write that took effect and still failed. */
  ghost predicate Tracks(rows: seq<RouteRow>, policy: Policy, from: RouteMap, p: Progress) {
    && (forall id :: Moved(rows, policy, from, p.remote, id))
    && Drift(rows, policy, from) == Drift(rows, policy, p.remote) + p.changed + (if p.landed then 1 else 0)
    && (p.landed ==> p.failed.Some?)
  }

  ghost predicate Moved(rows: seq<RouteRow>, policy: Policy, from: RouteMap, to: RouteMap, id: RouteId) {
    Look(to, id) == Look(from, id) || Look(to, id) == TargetAt(rows, policy, id, Look(from, id))
  }

  /** One write that puts a dirty id into its target state lowers the drift by exactly one. */
  lemma WriteLowersDrift(rows: seq<RouteRow>, policy: Policy, before: RouteMap, after: RouteMap, id: RouteId)
    requires DistinctRows(rows)
    requires id in Dirty(rows, policy, before)
    requires Look(after, id) == TargetAt(rows, policy, id, Look(before, id))
    requires forall other :: other != id ==> Look(after, other) == Look(before, other)
    ensures Drift(rows, policy, before) == Drift(rows, policy, after) + 1
  {
    hide TargetAt, Mismatched, Stale, Dirty, Drift, Look;
    DriftCountsDirty(rows, policy, before);
    DriftCountsDirty(rows, policy, after);
    TargetIsStable(rows, policy, id, Look(before, id));
    forall other ensures other in Dirty(rows, policy, after) <==> other in Dirty(rows, policy, before) - {id} {
      DirtyIffOffTarget(rows, policy, before, other);
      DirtyIffOffTarget(rows, policy, after, other);
    }
    assert Dirty(rows, policy, after) == Dirty(rows, policy, before) - {id};
  }

  /** A write of the target state at a dirty id keeps Tracks, whether or not the call also raised. */
  lemma WriteTracks(rows: seq<RouteRow>, policy: Policy, from: RouteMap, p: Progress, q: Progress, id: RouteId)
    requires DistinctRows(rows) && Tracks(rows, policy, from, p) && p.failed.None?
    requires id in Dirty(rows, policy, p.remote)
    requires Look(q.remote, id) == TargetAt(rows, policy, id, Look(p.remote, id))
    requires forall other :: other != id ==> Look(q.remote, other) == Look(p.remote, other)
    requires (q.changed == p.changed + 1 && !q.landed) || (q.changed == p.changed && q.landed && q.failed.Some?)
    ensures Tracks(rows, policy, from, q)
  {
    hide TargetAt, Drift, Dirty, Look;
    WriteLowersDrift(rows, policy, p.remote, q.remote, id);
    forall i ensures Moved(rows, policy, from, q.remote, i) {
      assert Moved(rows, policy, from, p.remote, i);
      TargetIsStable(rows, policy, i, Look(from, i));
    }
  }

  lemma PutStepTracks(rows: seq<RouteRow>, policy: Policy, from: RouteMap, snapshot: Option<RouteMap>, p: Progress,
                      k: nat)
    requires DistinctRows(rows) && k < |rows| && p.failed.None? && Tracks(rows, policy, from, p)
    requires snapshot.Some? ==> Look(snapshot.value, rows[k].id) == Look(p.remote, rows[k].id)
    ensures var q := PutStep(rows[k], policy, snapshot, p);
      && Tracks(rows, policy, from, q)
      && (forall id :: id != rows[k].id ==> Look(q.remote, id) == Look(p.remote, id))
      && (q.failed.None? ==>
           Look(q.remote, rows[k].id) == TargetAt(rows, policy, rows[k].id, Look(p.remote, rows[k].id)))
      && (q.failed.None? ==> InSync(Look(q.remote, rows[k].id), rows[k], policy))
  {
    hide Drift, Payload, Matches, Moved, Dirty;
    var row := rows[k];
    RowForOwn(rows, k);
    MatchesItself(Payload(row, policy));
    DirtyIffOffTarget(rows, policy, p.remote, row.id);
    var q := PutStep(row, policy, snapshot, p);
    if q.remote != p.remote {
      WriteTracks(rows, policy, from, p, q, row.id);
    }
  }

  /** After the put phase the rows not yet reached are untouched, and after a clean one all rows match. */
  lemma {:induction false} PutPhaseTracks(rows: seq<RouteRow>, k: nat, policy: Policy, from: RouteMap,
                                          snapshot: Option<RouteMap>, p: Progress)
    requires DistinctRows(rows) && k <= |rows| && Tracks(rows, policy, from, p)
    requires p.failed.None? ==> forall i :: 0 <= i < k ==> InSync(Look(p.remote, rows[i].id), rows[i], policy)
    requires snapshot.Some? ==> forall i :: k <= i < |rows| ==>
      Look(snapshot.value, rows[i].id) == Look(p.remote, rows[i].id)
    ensures var q := PutPhase(rows, k, policy, snapshot, p);
      && Tracks(rows, policy, from, q)
      && (forall id :: id !in RowIds(rows) ==> Look(q.remote, id) == Look(p.remote, id))
      && (q.failed.None? ==> forall i :: 0 <= i < |rows| ==> InSync(Look(q.remote, rows[i].id), rows[i], policy))
    decreases |rows| - k
  {
    hide Tracks, InSync, PutStep, Look;
    if k < |rows| && p.failed.None? {
      PutStepTracks(rows, policy, from, snapshot, p, k);
      PutPhaseTracks(rows, k + 1, policy, from, snapshot, PutStep(rows[k], policy, snapshot, p));
    }
  }

  /** During the delete phase a listed route that no row asks for is as listed or already gone. */
  ghost predicate ListedOrGone(rows: seq<RouteRow>, listed: RouteMap, routes: RouteMap) {
    forall id :: id !in RowIds(rows) ==> Look(routes, id) == Look(listed, id) || id !in routes
  }

  lemma DeleteStepTracks(rows: seq<RouteRow>, policy: Policy, from: RouteMap, listed: RouteMap, id: RouteId,
                         p: Progress)
    requires DistinctRows(rows) && p.failed.None? && Tracks(rows, policy, from, p)
      && ListedOrGone(rows, listed, p.remote)
    ensures var q := DeleteStep(rows, listed, id, p);
      && Tracks(rows, policy, from, q)
      && ListedOrGone(rows, listed, q.remote)
      && (q.failed.None? && id in Stale(rows, listed) ==> id !in q.remote)
      && (forall other :: other in q.remote ==> other in p.remote)
      && (forall other :: other in RowIds(rows) ==> Look(q.remote, other) == Look(p.remote, other))
  {
    hide Drift, Moved, Payload, Matches;
    var q := DeleteStep(rows, listed, id, p);
    if id in Stale(rows, listed) && id in p.remote && q.remote != p.remote {
      RowForCorrect(rows, id);
      assert Look(p.remote, id) == Look(listed, id);
      WriteTracks(rows, policy, from, p, q, id);
    } else {
      assert q.remote == p.remote;
    }
  }

  lemma {:induction false} DeletePhaseTracks(rows: seq<RouteRow>, policy: Policy, from: RouteMap, listed: RouteMap,
          order: seq<RouteId>, k: nat, p: Progress)
    requires DistinctRows(rows) && k <= |order| && Tracks(rows, policy, from, p) && ListedOrGone(rows, listed, p.remote)
    requires p.failed.None? ==> forall i :: 0 <= i < k && order[i] in Stale(rows, listed) ==> order[i] !in p.remote
    ensures var q := DeletePhase(rows, listed, order, k, p);
      && Tracks(rows, policy, from, q)
      && ListedOrGone(rows, listed, q.remote)
      && (q.failed.None? ==> forall i :: 0 <= i < |order| && order[i] in Stale(rows, listed) ==> order[i] !in q.remote)
      && (forall id :: id in RowIds(rows) ==> Look(q.remote, id) == Look(p.remote, id))
      && (q.failed.None? ==> p.failed.None?)
    decreases |order| - k
  {
    hide Tracks, DeleteStep, Stale, ListedOrGone, Look;
    if k < |order| && p.failed.None? {
      DeleteStepTracks(rows, policy, from, listed, order[k], p);
      DeletePhaseTracks(rows, policy, from, listed, order, k + 1, DeleteStep(rows, listed, order[k], p));
    }
  }

  lemma {:induction false} ReadsChangeNothing(n: nat, p: Progress)
    ensures var q := Reads(n, p); q.remote == p.remote && q.changed == p.changed && q.landed == p.landed
  {
    if n > 0 && p.failed.None? {
      ReadsChangeNothing(n - 1, ReadCall(p));
    }
  }

  lemma StartTracks(rows: seq<RouteRow>, policy: Policy, remote: RouteMap, p: Progress)
    requires p.remote == remote && p.changed == 0 && !p.landed
    ensures Tracks(rows, policy, remote, p)
    ensures ListedOrGone(rows, remote, remote)
  {
  }

  /** Every run, whatever fails, tracks its starting state; a clean one leaves every row matched and
      every stale route in the listing order gone. */
  lemma RunTracks(rows: seq<RouteRow>, policy: Policy, failClosed: bool, order: seq<RouteId>, remote: RouteMap,
                  tape: seq<Fault>)
    requires DistinctRows(rows)
    ensures var q := Run(rows, policy, failClosed, order, remote, tape);
      && Tracks(rows, policy, remote, q)
      && (q.failed.None? ==> forall i :: 0 <= i < |rows| ==> InSync(Look(q.remote, rows[i].id), rows[i], policy))
      && (q.failed.None? ==> forall id :: id in order && id in Stale(rows, remote) ==> id !in q.remote)
  {
    hide Tracks, InSync, PutPhase, DeletePhase, Reads, Stale, Look;
    var q := Run(rows, policy, failClosed, order, remote, tape);
    if failClosed {
      var loaded := Reads(|rows| + 1, Start(remote, tape));
      ReadsChangeNothing(|rows| + 1, Start(remote, tape));
      StartTracks(rows, policy, remote, loaded);
      if loaded.failed.None? {
        var written := PutPhase(rows, 0, policy, Some(remote), loaded);
        PutPhaseTracks(rows, 0, policy, remote, Some(remote), loaded);
        DeletePhaseTracks(rows, policy, remote, remote, order, 0, written);
        if written.failed.None? { RowsStayInSync(rows, policy, written.remote, q.remote); }
      }
    } else {
      StartTracks(rows, policy, remote, Start(remote, tape));
      var written := PutPhase(rows, 0, policy, None, Start(remote, tape));
      PutPhaseTracks(rows, 0, policy, remote, None, Start(remote, tape));
      if written.failed.None? {
        var listed := ReadCall(written);
        ReadTracks(rows, policy, remote, written);
        if listed.failed.None? {
          StartTracks(rows, policy, listed.remote, Start(listed.remote, []));
          DeletePhaseTracks(rows, policy, remote, listed.remote, order, 0, listed);
          RowsStayInSync(rows, policy, written.remote, q.remote);
          StaleUnchanged(rows, remote, listed.remote);
        }
      }
    }
  }

  lemma ReadTracks(rows: seq<RouteRow>, policy: Policy, from: RouteMap, p: Progress)
    requires Tracks(rows, policy, from, p) && p.failed.None?
    ensures Tracks(rows, policy, from, ReadCall(p)) && ReadCall(p).remote == p.remote
  {
    hide Drift, Moved;
  }

  lemma RowsStayInSync(rows: seq<RouteRow>, policy: Policy, a: RouteMap, b: RouteMap)
    requires forall id :: id in RowIds(rows) ==> Look(b, id) == Look(a, id)
    requires forall i :: 0 <= i < |rows| ==> InSync(Look(a, rows[i].id), rows[i], policy)
    ensures forall i :: 0 <= i < |rows| ==> InSync(Look(b, rows[i].id), rows[i], policy)
  {
    hide InSync, Look;
    forall i | 0 <= i < |rows| ensures InSync(Look(b, rows[i].id), rows[i], policy) {
      assert rows[i].id in RowIds(rows);
    }
  }

  lemma StaleUnchanged(rows: seq<RouteRow>, a: RouteMap, b: RouteMap)
    requires forall id :: id !in RowIds(rows) ==> Look(b, id) == Look(a, id)
    ensures Stale(rows, b) == Stale(rows, a)
  {
    hide IsManaged;
    forall id ensures id in Stale(rows, b) <==> id in Stale(rows, a) {
      if id !in RowIds(rows) { assert Look(b, id) == Look(a, id); }
    }
  }

  // ----- Which call failed, and how -----

  function FaultAt(tape: seq<Fault>, i: nat): Fault {
    if i < |tape| then tape[i] else NoFault
  }

  function Remaining(tape: seq<Fault>, n: nat): seq<Fault> {
    if n <= |tape| then tape[n..] else []
  }

  /** The calls that change the remote: a put, and a delete of a route that is there. */
  predicate Effective(call: ClientCall) {
    call.Put? || (call.Delete? && call.present)
  }

  /** Call i met the i-th fault of the tape: none up to the last call, and none there either unless it
      failed. The run has landed when the last call is effective and its fault is Landed. */
  ghost predicate Traced(tape: seq<Fault>, p: Progress) {
    && p.tape == Remaining(tape, |p.trace|)
    && (forall i :: 0 <= i < |p.trace| && (i < |p.trace| - 1 || p.failed.None?) ==> FaultAt(tape, i).NoFault?)
    && (p.failed.Some? ==> p.trace != [] && FailsWith(FaultAt(tape, |p.trace| - 1), p.failed.value))
    && (p.landed <==> (
          p.failed.Some? && p.trace != [] && FaultAt(tape, |p.trace| - 1).Landed? && Effective(p.trace[|p.trace| - 1])))
  }

  predicate FailsWith(fault: Fault, failure: Failure) {
    !fault.NoFault? && fault.failure == failure
  }

  /** One more call keeps the alignment. */
  lemma CallTraced(tape: seq<Fault>, p: Progress, call: ClientCall, q: Progress)
    requires Traced(tape, p) && p.failed.None?
    requires q.trace == p.trace + [call] && q.tape == Rest(p.tape)
    requires match Next(p.tape)
      case NoFault => q.failed.None? && !q.landed
      case Lost(e) => q.failed == Some(e) && !q.landed
      case Landed(e) => q.failed == Some(e) && (q.landed <==> Effective(call))
    ensures Traced(tape, q)
  {
    hide Effective;
    var n := |p.trace|;
    RemainingStep(tape, n);
    assert q.trace[|q.trace| - 1] == call && |q.trace| - 1 == n;
  }

  lemma RemainingStep(tape: seq<Fault>, n: nat)
    ensures Next(Remaining(tape, n)) == FaultAt(tape, n) && Rest(Remaining(tape, n)) == Remaining(tape, n + 1)
  {
  }

  lemma NotLanded(tape: seq<Fault>, p: Progress)
    requires Traced(tape, p) && p.failed.None?
    ensures !p.landed
  {
  }

  lemma CallsTraced(tape: seq<Fault>, p: Progress, id: RouteId, route: Route)
    requires Traced(tape, p) && p.failed.None?
    ensures Traced(tape, ReadCall(p)) && Traced(tape, PutCall(p, id, route)) && Traced(tape, DeleteCall(p, id))
  {
    hide Traced;
    NotLanded(tape, p);
    CallTraced(tape, p, Read, ReadCall(p));
    CallTraced(tape, p, Put(id), PutCall(p, id, route));
    CallTraced(tape, p, Delete(id, id in p.remote), DeleteCall(p, id));
  }

  lemma {:induction false} ReadsTraced(tape: seq<Fault>, n: nat, p: Progress)
    requires Traced(tape, p)
    ensures Traced(tape, Reads(n, p))
  {
    hide Traced, ReadCall;
    if n > 0 && p.failed.None? {
      CallsTraced(tape, p, "", map[]);
      ReadsTraced(tape, n - 1, ReadCall(p));
    }
  }

  lemma PutStepTraced(tape: seq<Fault>, row: RouteRow, policy: Policy, snapshot: Option<RouteMap>, p: Progress)
    requires Traced(tape, p) && p.failed.None?
    ensures Traced(tape, PutStep(row, policy, snapshot, p))
  {
    hide Traced, ReadCall, PutCall, InSync;
    CallsTraced(tape, p, row.id, Payload(row, policy));
    if ReadCall(p).failed.None? { CallsTraced(tape, ReadCall(p), row.id, Payload(row, policy)); }
  }

  lemma {:induction false} PutPhaseTraced(tape: seq<Fault>, rows: seq<RouteRow>, k: nat, policy: Policy,
                                          snapshot: Option<RouteMap>, p: Progress)
    requires Traced(tape, p) && k <= |rows|
    ensures Traced(tape, PutPhase(rows, k, policy, snapshot, p))
    decreases |rows| - k
  {
    hide Traced, PutStep;
    if k < |rows| && p.failed.None? {
      PutStepTraced(tape, rows[k], policy, snapshot, p);
      PutPhaseTraced(tape, rows, k + 1, policy, snapshot, PutStep(rows[k], policy, snapshot, p));
    }
  }

  lemma {:induction false} DeletePhaseTraced(tape: seq<Fault>, rows: seq<RouteRow>, listed: RouteMap,
          order: seq<RouteId>, k: nat, p: Progress)
    requires Traced(tape, p) && k <= |order|
    ensures Traced(tape, DeletePhase(rows, listed, order, k, p))
    decreases |order| - k
  {
    hide Traced, DeleteCall, IsManaged;
    if k < |order| && p.failed.None? {
      CallsTraced(tape, p, order[k], map[]);
      DeletePhaseTraced(tape, rows, listed, order, k + 1, DeleteStep(rows, listed, order[k], p));
    }
  }

  /** The calls of a run line up with the fault tape. */
  lemma RunTraced(rows: seq<RouteRow>, policy: Policy, failClosed: bool, order: seq<RouteId>, remote: RouteMap,
                  tape: seq<Fault>)
    ensures Traced(tape, Run(rows, policy, failClosed, order, remote, tape))
  {
    hide Traced, Reads, PutPhase, DeletePhase, ReadCall;
    var start := Start(remote, tape);
    StartTraced(remote, tape);
    if failClosed {
      var loaded := Reads(|rows| + 1, start);
      ReadsTraced(tape, |rows| + 1, start);
      PutPhaseTraced(tape, rows, 0, policy, Some(loaded.remote), loaded);
      DeletePhaseTraced(tape, rows, loaded.remote, order, 0, PutPhase(rows, 0, policy, Some(loaded.remote), loaded));
    } else {
      PutPhaseTraced(tape, rows, 0, policy, None, start);
      var written := PutPhase(rows, 0, policy, None, start);
      if written.failed.None? {
        CallsTraced(tape, written, "", map[]);
        var listed := ReadCall(written);
        DeletePhaseTraced(tape, rows, listed.remote, order, 0, listed);
      }
    }
  }

  lemma StartTraced(remote: RouteMap, tape: seq<Fault>)
    ensures Traced(tape, Start(remote, tape))
  {
  }
}
