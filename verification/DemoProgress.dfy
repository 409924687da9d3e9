/** When a seeding whose requests go through completes, wherever earlier runs stopped
    (src/grantora/cli/demo_workflow.py). */
module DemoProgress {
  import opened Prelude
  import opened Tables
  import opened AdminOps
  import opened Constraints
  import opened AdminRuns
  import opened DemoSeed

  /** Every request is answered. */
  ghost predicate Answered(net: nat -> Net) {
    forall t :: net(t).delivery.Works?
  }

  /** From step i at the given clock, on a server that holds the first k steps' objects: the values drawn for
      each POST that is due fit. A step whose object is there, and the permission step, make one request;
      the others look up and then create. */
  predicate DrawsFit(base: Db, k: nat, i: nat, clock: nat, net: nat -> Net)
    requires i <= |SLOTS|
    decreases |SLOTS| - i
  {
    if i == |SLOTS| then true
    else if i < k || SLOTS[i] == PermissionSlot then DrawsFit(base, k, i + 1, clock + 1, net)
    else DrawFits(base, SLOTS[i], net(clock + 1).env) && DrawsFit(base, k, i + 1, clock + 2, net)
  }

  /** Nothing depends on k once it is passed. */
  lemma {:induction false} DrawsFitBeyond(base: Db, k: nat, l: nat, i: nat, clock: nat, net: nat -> Net)
    requires k <= i && l <= i <= |SLOTS|
    ensures DrawsFit(base, k, i, clock, net) == DrawsFit(base, l, i, clock, net)
    decreases |SLOTS| - i
  {
    hide DrawFits;
    if i < |SLOTS| {
      DrawsFitBeyond(base, k, l, i + 1, clock + 1, net);
      DrawsFitBeyond(base, k, l, i + 1, clock + 2, net);
    }
  }

  // ----- The constraints accept the demo objects -----

  ghost predicate TokenIsNew(base: Db, o: Objects) {
    forall k :: k in base.agents ==> base.agents[k].tokenHash != o.tokenHash
  }

  lemma AcceptedTokenIsNew(base: Db, cfg: Config, o: Objects, k: nat)
    requires Accepts(Build(base, cfg, o, k)) && k >= 7 && Fresh(base, o, k)
    ensures TokenIsNew(base, o)
  {
    hide UniqueWorkspaces, UniqueApplications, UniqueUsers, UniqueRoles, UniqueActiveBindings, UniqueActiveSecrets;
    var after := Build(base, cfg, o, k).agents;
    forall a | a in base.agents ensures base.agents[a].tokenHash != o.tokenHash {
      assert a in after && o.agent in after && after[a] == base.agents[a];
    }
  }

  /** The demo rows all belong to a new workspace, so they clash with no row of the base. */
  lemma DemoRowsAccepted(base: Db, cfg: Config, o: Objects, k: nat)
    requires Inv(base) && Pristine(base, cfg) && Fresh(base, o, k) && (k >= 7 ==> TokenIsNew(base, o))
    ensures Accepts(Build(base, cfg, o, k))
  {
    hide WellReferenced, Accepts, Build, Pristine, Fresh, TokenIsNew;
    PrincipalsAccepted(base, cfg, o, k);
    GrantsAccepted(base, cfg, o, k);
    assert Accepts(Build(base, cfg, o, k)) by { AcceptsParts(Build(base, cfg, o, k)); }
  }

  lemma AcceptsParts(db: Db)
    ensures Accepts(db) <==> (
      && UniqueWorkspaces(db) && UniqueApplications(db) && UniqueUsers(db) && UniqueAgents(db) && UniqueRoles(db)
      && UniqueActiveBindings(db) && UniqueActiveSecrets(db))
  {
  }

  lemma PrincipalsAccepted(base: Db, cfg: Config, o: Objects, k: nat)
    requires Inv(base) && Pristine(base, cfg) && Fresh(base, o, k) && (k >= 7 ==> TokenIsNew(base, o))
    ensures var db := Build(base, cfg, o, k);
      UniqueWorkspaces(db) && UniqueApplications(db) && UniqueUsers(db) && UniqueAgents(db) && UniqueRoles(db)
  {
    hide WellReferenced, UniqueActiveBindings, UniqueActiveSecrets;
    if k >= 1 { WorkspaceIsNew(base, o); }
  }

  lemma GrantsAccepted(base: Db, cfg: Config, o: Objects, k: nat)
    requires Inv(base) && Fresh(base, o, k)
    ensures UniqueActiveBindings(Build(base, cfg, o, k)) && UniqueActiveSecrets(Build(base, cfg, o, k))
  {
    hide WellReferenced, UniqueWorkspaces, UniqueApplications, UniqueUsers, UniqueAgents, UniqueRoles;
    if k >= 1 { WorkspaceIsNew(base, o); }
  }

  // ----- When a step succeeds -----

  /** The POST of step i is accepted exactly when its drawn values fit. */
  lemma CreationSucceedsIff(base: Store, cfg: Config, o: Objects, store: Store, ids: Objects, env: Env, i: nat)
    requires Inv(base.db) && Pristine(base.db, cfg) && At(base, cfg, o, i, store) && Accepts(store.db)
    requires i < |SLOTS| && i != 4 && Agrees(ids, o, i)
    ensures Step(store, SUPER, Creation(cfg, SLOTS[i], ids), env).1.Done? <==> DrawFits(base.db, SLOTS[i], env)
  {
    hide Stage, Creation, Build, Fresh, Pristine, Accepts, Inv, Agrees, TokenIsNew, DrawFits;
    StagesTheNextObject(base.db, cfg, o, ids, env, i);
    var next := Grow(o, SLOTS[i], env);
    var after := Step(store, SUPER, Creation(cfg, SLOTS[i], ids), env);
    if DrawFits(base.db, SLOTS[i], env) {
      if i + 1 >= 7 { NextTokenIsNew(base.db, cfg, o, env, i); }
      DemoRowsAccepted(base.db, cfg, next, i + 1);
    }
    if after.1.Done? && SLOTS[i] == AgentSlot {
      AcceptedTokenIsNew(base.db, cfg, next, 7);
      AgentDrawFits(base.db, o, env);
    }
  }

  lemma AgentDrawFits(base: Db, o: Objects, env: Env)
    requires env.nextId !in base.agents && TokenIsNew(base, Grow(o, AgentSlot, env))
    ensures DrawFits(base, AgentSlot, env)
  {
  }

  lemma NextTokenIsNew(base: Db, cfg: Config, o: Objects, env: Env, i: nat)
    requires 6 <= i < |SLOTS| && Accepts(Build(base, cfg, o, i)) && Fresh(base, o, i) && DrawFits(base, SLOTS[i], env)
    ensures TokenIsNew(base, Grow(o, SLOTS[i], env))
  {
    hide Accepts, Build, Fresh;
    if i >= 7 { AcceptedTokenIsNew(base, cfg, o, i); }
  }

  /** An answered step succeeds exactly when its object is there already or its drawn values fit. */
  lemma EnsureSucceedsIff(base: Store, cfg: Config, o: Objects, k: nat, s: Session, i: nat, net: nat -> Net)
    requires Inv(base.db) && Pristine(base.db, cfg) && At(base, cfg, o, k, s.store) && Accepts(s.store.db)
    requires i < |SLOTS| && i <= k && s.failed.None? && Agrees(s.ids, o, i) && Answered(net)
    ensures var t := Ensure(s, cfg, SLOTS[i], net);
      && (t.failed.None? <==> (i < k || i == 4 || DrawFits(base.db, SLOTS[i], net(s.clock + 1).env)))
      && t.clock == s.clock + if i < k || i == 4 then 1 else 2
  {
    hide Inv, Pristine, At, Accepts, Agrees, Matching, Usable, Stage, Creation, DrawFits, Perform;
    assert WellReferenced(base.db) by { InvParts(base.db); }
    var _, _ := EnsureMovesForward(base, cfg, o, k, s, i, net);
    assert net(s.clock).delivery.Works? && net(s.clock + 1).delivery.Works?;
    if k == i && i != 4 {
      NothingFoundYet(base, cfg, o, s, i);
      CreationSucceedsIff(base, cfg, o, s.store, s.ids, net(s.clock + 1).env, i);
    }
  }

  lemma NothingFoundYet(base: Store, cfg: Config, o: Objects, s: Session, i: nat)
    requires Inv(base.db) && Pristine(base.db, cfg) && At(base, cfg, o, i, s.store) && i < |SLOTS| && i != 4
      && Agrees(s.ids, o, i)
    ensures Matching(cfg, SLOTS[i], s.store.db, s.ids) == {}
  {
    hide WellReferenced, Accepts, Pristine, Fresh, Build, Agrees, Matching;
    LookupFindsTheObject(base.db, cfg, o, i, s.ids, i);
  }

  lemma InvParts(db: Db)
    ensures Inv(db) ==> WellReferenced(db) && Accepts(db)
  {
  }

  // ----- Runs keep the constraints, and complete -----

  lemma SeedingPermissionsAccepted(db: Db)
    requires Accepts(db)
    ensures Accepts(db.(permissions := db.permissions + DEFAULT_PERMISSIONS))
  {
  }

  lemma EnsureKeepsAccepted(s: Session, cfg: Config, slot: Slot, net: nat -> Net)
    requires Accepts(s.store.db)
    ensures Accepts(Ensure(s, cfg, slot, net).store.db)
  {
    hide Accepts, Stage, Creation, Matching, Usable, Learn;
    SeedingPermissionsAccepted(s.store.db);
  }

  lemma {:induction false} RunKeepsAccepted(s: Session, cfg: Config, i: nat, net: nat -> Net)
    requires i <= |SLOTS| && Accepts(s.store.db)
    ensures Accepts(SeedFrom(s, cfg, i, net).store.db)
    decreases |SLOTS| - i
  {
    hide Accepts, Ensure;
    if i < |SLOTS| && s.failed.None? {
      EnsureKeepsAccepted(s, cfg, SLOTS[i], net);
      RunKeepsAccepted(Ensure(s, cfg, SLOTS[i], net), cfg, i + 1, net);
    }
  }

  lemma {:induction false} HistoryKeepsAccepted(store: Store, cfg: Config, nets: seq<nat -> Net>)
    requires Accepts(store.db)
    ensures Accepts(AfterRuns(store, cfg, nets).db)
    decreases |nets|
  {
    hide Accepts, SeedFrom;
    if nets != [] {
      RunKeepsAccepted(Session(store, 0, NOTHING, 0, None, Unknown), cfg, 0, nets[0]);
      HistoryKeepsAccepted(Seed(store, cfg, nets[0]).store, cfg, nets[1..]);
    }
  }

  lemma {:induction false} RunCompletesIff(base: Store, cfg: Config, o: Objects, k: nat, s: Session, i: nat,
          net: nat -> Net)
    requires Inv(base.db) && Pristine(base.db, cfg) && At(base, cfg, o, k, s.store) && Accepts(s.store.db)
    requires i <= |SLOTS| && i <= k && s.failed.None? && Agrees(s.ids, o, i) && Answered(net)
    ensures SeedFrom(s, cfg, i, net).failed.None? <==> DrawsFit(base.db, k, i, s.clock, net)
    decreases |SLOTS| - i
  {
    hide Inv, Pristine, At, Accepts, Agrees, Ensure, Answered, DrawFits;
    if i < |SLOTS| {
      assert WellReferenced(base.db) by { InvParts(base.db); }
      var t := Ensure(s, cfg, SLOTS[i], net);
      EnsureSucceedsIff(base, cfg, o, k, s, i, net);
      EnsureKeepsAccepted(s, cfg, SLOTS[i], net);
      var o', k' := EnsureMovesForward(base, cfg, o, k, s, i, net);
      if t.failed.None? {
        RunCompletesIff(base, cfg, o', k', t, i + 1, net);
        if k == i { DrawsFitBeyond(base.db, k, k', i + 1, t.clock, net); }
      }
    }
  }

  /** After any history of interrupted runs, which has got as far as the first k steps, a run whose requests
      are answered completes exactly when the values drawn for each POST still due fit. */
  lemma SeedingCompletesIff(base: Store, cfg: Config, nets: seq<nat -> Net>, last: nat -> Net)
    returns (o: Objects, k: nat)
    requires Inv(base.db) && Pristine(base.db, cfg) && Answered(last)
    ensures At(base, cfg, o, k, AfterRuns(base, cfg, nets))
    ensures Seed(AfterRuns(base, cfg, nets), cfg, last).failed.None? <==> DrawsFit(base.db, k, 0, 0, last)
  {
    hide Inv, Pristine, At, Accepts, AfterRuns, SeedFrom, Answered, DrawsFit;
    assert WellReferenced(base.db) && Accepts(base.db) by { InvParts(base.db); }
    NothingSeededYet(base, cfg);
    o, k := HistoryMovesForward(base, cfg, NOTHING, 0, base, nets);
    HistoryKeepsAccepted(base, cfg, nets);
    RunCompletesIff(base, cfg, o, k, Session(AfterRuns(base, cfg, nets), 0, NOTHING, 0, None, Unknown), 0, last);
  }

  // ----- Completing, and stopping, do happen -----

  /** Values that fit every step. */
  ghost predicate Fits(base: Db, net: nat -> Net) {
    forall t, slot :: DrawFits(base, slot, net(t).env)
  }

  lemma {:induction false} FittingDraws(base: Db, k: nat, i: nat, clock: nat, net: nat -> Net)
    requires i <= |SLOTS| && Fits(base, net)
    ensures DrawsFit(base, k, i, clock, net)
    decreases |SLOTS| - i
  {
    hide DrawFits;
    if i < |SLOTS| {
      FittingDraws(base, k, i + 1, clock + 1, net);
      FittingDraws(base, k, i + 1, clock + 2, net);
    }
  }

  /** Seeding never gets stuck half-way: an answered run whose values clash with nothing completes. */
  lemma SeedingCompletes(base: Store, cfg: Config, nets: seq<nat -> Net>, last: nat -> Net)
    requires Inv(base.db) && Pristine(base.db, cfg) && Answered(last) && Fits(base.db, last)
    ensures Seed(AfterRuns(base, cfg, nets), cfg, last).failed.None?
  {
    hide Inv, Pristine, At, AfterRuns, Seed, Answered, Fits, DrawsFit;
    var o, k := SeedingCompletesIff(base, cfg, nets, last);
    FittingDraws(base.db, k, 0, 0, last);
  }

  lemma {:induction false} UnsealedDraws(base: Db, i: nat, clock: nat, net: nat -> Net)
    requires i <= 8 && forall t :: net(t).env.cipher.None?
    ensures !DrawsFit(base, 0, i, clock, net)
    decreases 8 - i
  {
    if i < 8 {
      UnsealedDraws(base, i + 1, clock + 1, net);
      UnsealedDraws(base, i + 1, clock + 2, net);
    } else {
      assert SLOTS[8] == SecretSlot;
    }
  }

  /** While encryption is unavailable no first run completes, however well its requests are answered. */
  lemma WithoutEncryptionSeedingStops(base: Store, cfg: Config, net: nat -> Net)
    requires Inv(base.db) && Pristine(base.db, cfg) && Answered(net) && forall t :: net(t).env.cipher.None?
    ensures Seed(base, cfg, net).failed.Some?
  {
    hide Inv, Pristine, At, Accepts, SeedFrom, Answered, DrawsFit;
    assert Accepts(base.db) by { InvParts(base.db); }
    NothingSeededYet(base, cfg);
    RunCompletesIff(base, cfg, NOTHING, 0, Session(base, 0, NOTHING, 0, None, Unknown), 0, net);
    UnsealedDraws(base.db, 0, 0, net);
  }

  /** Answers every request, but cannot seal. */
  function Unsealed(t: nat): Net {
    Net(Works, Env(t, "hash", None), "token")
  }

  /** For example on the empty database. */
  lemma SeedingCanStop(cfg: Config)
    requires Elems(cfg.permissions) <= DEFAULT_PERMISSIONS
    ensures Inv(EMPTY_DB) && Pristine(EMPTY_DB, cfg)
    ensures Seed(Store(EMPTY_DB, []), cfg, Unsealed).failed.Some?
  {
    hide Seed, Inv, DEFAULT_PERMISSIONS;
    EmptyDbIsSound();
    WithoutEncryptionSeedingStops(Store(EMPTY_DB, []), cfg, Unsealed);
  }
}
