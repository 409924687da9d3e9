/** Which agent token a seeding reports (src/grantora/cli/demo_workflow.py). */
module DemoToken {
  import opened Prelude
  import opened Tables
  import opened AdminOps
  import opened Constraints
  import opened AdminRuns
  import opened DemoSeed

  /** The position of the agent step. */
  const AGENT_STEP := 6

  /** The reported token is the one whose hash the server stored for the agent. */
  predicate TokenOpens(s: Session) {
    s.token.Issued? && s.ids.agent in s.store.db.agents && s.store.db.agents[s.ids.agent].tokenHash == s.token.hash
  }

  lemma LaterStagesKeepAgents(db: Db, cfg: Config, slot: Slot, ids: Objects, env: Env)
    requires slot == BindingSlot || slot == SecretSlot
    ensures var staged := Stage(db, SUPER, Creation(cfg, slot, ids), env);
      staged.Pass? ==> staged.value.db.agents == db.agents
  {
    hide ValidateBinding, ValidateSecret, RequireAdminWorkspace;
  }

  lemma LaterStepsKeepToken(s: Session, cfg: Config, slot: Slot, net: nat -> Net)
    requires slot == BindingSlot || slot == SecretSlot
    ensures var t := Ensure(s, cfg, slot, net);
      t.token == s.token && t.ids.agent == s.ids.agent && t.store.db.agents == s.store.db.agents
  {
    hide Stage, Accepts, Creation, Matching, Usable;
    LaterStagesKeepAgents(s.store.db, cfg, slot, s.ids, net(s.clock + 1).env);
  }

  lemma {:induction false} RestKeepsToken(s: Session, cfg: Config, i: nat, net: nat -> Net)
    requires AGENT_STEP < i <= |SLOTS|
    ensures var t := SeedFrom(s, cfg, i, net);
      t.token == s.token && t.ids.agent == s.ids.agent && t.store.db.agents == s.store.db.agents
    decreases |SLOTS| - i
  {
    hide Ensure;
    if i < |SLOTS| && s.failed.None? {
      LaterStepsKeepToken(s, cfg, SLOTS[i], net);
      RestKeepsToken(Ensure(s, cfg, SLOTS[i], net), cfg, i + 1, net);
    }
  }

  /** The agent step: an agent that is there yields the configured token, a missing one the new token. */
  lemma AgentStepToken(base: Store, cfg: Config, o: Objects, k: nat, s: Session, net: nat -> Net)
    requires WellReferenced(base.db) && Pristine(base.db, cfg) && At(base, cfg, o, k, s.store)
    requires AGENT_STEP <= k && s.failed.None? && Agrees(s.ids, o, AGENT_STEP)
    ensures var t := Ensure(s, cfg, AgentSlot, net);
      t.failed.None? ==> if k > AGENT_STEP then t.token == Existing(cfg.existingAgentToken) else TokenOpens(t)
  {
    hide WellReferenced, Pristine, Fresh, Build, Matching, Usable, Stage, Accepts, Creation, Agrees;
    LookupFindsTheObject(base.db, cfg, o, k, s.ids, AGENT_STEP);
    if k > AGENT_STEP {
      assert Matching(cfg, AgentSlot, s.store.db, s.ids) == {IdOf(AgentSlot, o)};
    } else {
      assert Matching(cfg, AgentSlot, s.store.db, s.ids) == {};
      StagedAgentHasTheHash(s.store.db, cfg, s.ids, net(s.clock + 1).env);
    }
  }

  lemma StagedAgentHasTheHash(db: Db, cfg: Config, ids: Objects, env: Env)
    ensures var staged := Stage(db, SUPER, Creation(cfg, AgentSlot, ids), env);
      staged.Pass? ==>
        env.nextId in staged.value.db.agents && staged.value.db.agents[env.nextId].tokenHash == env.tokenHash
  {
    hide ActiveWorkspace, RequireAdminWorkspace;
  }

  lemma {:induction false} RunToken(base: Store, cfg: Config, o: Objects, k: nat, s: Session, i: nat, net: nat -> Net)
    requires WellReferenced(base.db) && Pristine(base.db, cfg) && At(base, cfg, o, k, s.store)
    requires i <= AGENT_STEP && i <= k && s.failed.None? && Agrees(s.ids, o, i)
    requires SeedFrom(s, cfg, i, net).failed.None?
    ensures var t := SeedFrom(s, cfg, i, net);
      if k > AGENT_STEP then t.token == Existing(cfg.existingAgentToken) else TokenOpens(t)
    decreases |SLOTS| - i
  {
    hide WellReferenced, Pristine, At, Agrees, Ensure, TokenOpens;
    var t := Ensure(s, cfg, SLOTS[i], net);
    assert t.failed.None? by {
      if t.failed.Some? { assert SeedFrom(t, cfg, i + 1, net) == t; }
    }
    if i == AGENT_STEP {
      AgentStepToken(base, cfg, o, k, s, net);
      RestKeepsToken(t, cfg, i + 1, net);
      OpensLater(t, SeedFrom(t, cfg, i + 1, net));
    } else {
      var o', k' := EnsureMovesForward(base, cfg, o, k, s, i, net);
      RunToken(base, cfg, o', k', t, i + 1, net);
    }
  }

  lemma OpensLater(s: Session, t: Session)
    requires t.token == s.token && t.ids.agent == s.ids.agent && t.store.db.agents == s.store.db.agents
    ensures TokenOpens(s) ==> TokenOpens(t)
  {
  }

  /** A completed run reports a new token, the one that opens the stored agent, exactly when it created the
      agent itself; otherwise it reports the configured one. */
  lemma TokenReportedIff(base: Store, cfg: Config, nets: seq<nat -> Net>, last: nat -> Net) returns (o: Objects, k: nat)
    requires WellReferenced(base.db) && Pristine(base.db, cfg)
    requires Seed(AfterRuns(base, cfg, nets), cfg, last).failed.None?
    ensures At(base, cfg, o, k, AfterRuns(base, cfg, nets))
    ensures var done := Seed(AfterRuns(base, cfg, nets), cfg, last);
      if k <= AGENT_STEP then TokenOpens(done) else done.token == Existing(cfg.existingAgentToken)
  {
    hide WellReferenced, Pristine, At, AfterRuns, SeedFrom, TokenOpens;
    NothingSeededYet(base, cfg);
    o, k := HistoryMovesForward(base, cfg, NOTHING, 0, base, nets);
    NothingLearned(NOTHING, o);
    RunToken(base, cfg, o, k, Session(AfterRuns(base, cfg, nets), 0, NOTHING, 0, None, Unknown), 0, last);
  }

  /** Once the agent is there, whoever created it, no later run learns its token: a run that created it and
      lost the answer has lost the token for good. */
  lemma LostTokenStaysLost(base: Store, cfg: Config, o: Objects, k: nat, store: Store, nets: seq<nat -> Net>,
                           last: nat -> Net)
    requires WellReferenced(base.db) && Pristine(base.db, cfg) && At(base, cfg, o, k, store) && k > AGENT_STEP
    requires Seed(AfterRuns(store, cfg, nets), cfg, last).failed.None?
    ensures Seed(AfterRuns(store, cfg, nets), cfg, last).token == Existing(cfg.existingAgentToken)
  {
    hide WellReferenced, Pristine, At, AfterRuns, SeedFrom;
    var o', k' := HistoryMovesForward(base, cfg, o, k, store, nets);
    NothingLearned(NOTHING, o');
    RunToken(base, cfg, o', k', Session(AfterRuns(store, cfg, nets), 0, NOTHING, 0, None, Unknown), 0, last);
  }

  /** Such a run: its answers come until the POST of the agent, whose answer is lost. */
  lemma LostAnswerCreatesTheAgent(base: Store, cfg: Config, o: Objects, s: Session, net: nat -> Net)
    requires WellReferenced(base.db) && Pristine(base.db, cfg) && At(base, cfg, o, AGENT_STEP, s.store)
    requires s.failed.None? && Agrees(s.ids, o, AGENT_STEP) && net(s.clock).delivery.Works?
      && net(s.clock + 1).delivery.LostAnswer?
    requires Step(s.store, SUPER, Creation(cfg, AgentSlot, s.ids), net(s.clock + 1).env).1.Done?
    ensures var t := Ensure(s, cfg, AgentSlot, net);
      && t.failed == Some(NetworkError) && t.token == s.token
      && At(base, cfg, Grow(o, AgentSlot, net(s.clock + 1).env), AGENT_STEP + 1, t.store)
  {
    hide WellReferenced, Pristine, Fresh, Build, Matching, Usable, Stage, Accepts, Creation, Agrees;
    LookupFindsTheObject(base.db, cfg, o, AGENT_STEP, s.ids, AGENT_STEP);
    assert Matching(cfg, AgentSlot, s.store.db, s.ids) == {};
    StagesTheNextObject(base.db, cfg, o, s.ids, net(s.clock + 1).env, AGENT_STEP);
  }
}
