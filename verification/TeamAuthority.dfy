/** Attenuation meets execution (scr/team.py, `TeamRunner.run`, with scr/orchestration.py): each session's
    kernel gets its agent's effective manifest, so no tool starts in a team run that some agent on the
    delegation path may not use. */
module TeamAuthority {
  import opened Basics
  import opened Capability
  import opened State
  import opened KernelSpec
  import opened Machine
  import opened Permission
  import opened Orchestration
  import opened TeamMachine
  import opened TeamSafety

  function Unrevoked(cfg: Config): TeamView {
    cfg.team.(revoked := {})
  }

  /** An orchestrator is also granted the framework's `delegate` tool. */
  function KernelManifest(cfg: Config, agent: string, eff: Manifest): Manifest {
    if ChildrenOf(cfg.team.edges, agent) == [] then eff else eff.(tools := eff.tools + {DELEGATE})
  }

  /** Every kernel is set up with the manifest that `effective_manifest` answers for its agent. */
  ghost predicate SetupsAreEffective(cfg: Config) {
    forall agent, path :: GrantedAlong(cfg.host, Unrevoked(cfg), path, agent) ==>
      cfg.setupOf(agent).manifest == KernelManifest(cfg, agent, Along(cfg.host, Unrevoked(cfg), path).value)
  }

  // ------------------------------------------------------ every session has its authority

  ghost predicate AgentsHaveAuthority(cfg: Config, ts: TeamState) {
    && (forall i :: 0 <= i < |ts.stack| ==> Authorized(cfg, {}, ts.stack[i].agent))
    && (forall sid :: sid in ts.returned ==> Authorized(cfg, {}, ts.returned[sid].0))
  }

  lemma AuthorityWithoutRevocations(cfg: Config, revoked: set<string>, agent: string)
    requires Authorized(cfg, revoked, agent)
    ensures Authorized(cfg, {}, agent)
  {
    hide IsPath;
    var t, t' := cfg.team.(revoked := revoked), cfg.team.(revoked := {});
    var path :| GrantedAlong(cfg.host, t, path, agent);
    RevokedIsNotRead(cfg.host, t, t', path);
    assert GrantedAlong(cfg.host, t', path, agent);
  }

  lemma TeamStepKeepsAuthority(cfg: Config, ts: TeamState, l: TeamLabel)
    requires AgentsHaveAuthority(cfg, ts) && TeamStep(cfg, ts, l).Some?
    ensures AgentsHaveAuthority(cfg, TeamStep(cfg, ts, l).value)
  {
    hide Authorized, Step, Allowed, Decide, Absorb, NewFrame, SidUsed;
    var f := Innermost(ts);
    if l.JobLaunch? {
      if Authorized(cfg, ts.revoked, f.job.next.child) {
        AuthorityWithoutRevocations(cfg, ts.revoked, f.job.next.child);
        NewFrameHasAgent(cfg, l.sid, f.job.next.child, f.depth + 1, f.job.next.task);
      }
    } else if l.JobReturn? {
      AbsorbShape(cfg, ts.stack[|ts.stack| - 2], f.conf.db.ledger, f.conf.phase.next.text, f.conf.phase.next.reason);
    }
  }

  lemma NewFrameHasAgent(cfg: Config, sid: string, agent: string, depth: nat, task: string)
    ensures NewFrame(cfg, sid, agent, depth, task).agent == agent
  {
  }

  lemma {:induction false} ReachedAuthority(cfg: Config, sid: string, agent: string, task: string, ls: seq<TeamLabel>)
    requires Authorized(cfg, {}, agent) && TeamReached(cfg, sid, agent, task, ls)
    ensures AgentsHaveAuthority(cfg, TeamSteps(cfg, TeamBoot(cfg, sid, agent, task), ls).value)
    decreases |ls|
  {
    hide TeamStep, Authorized, NewFrame;
    if ls == [] {
      NewFrameHasAgent(cfg, sid, agent, 0, task);
    } else {
      ReachedAuthority(cfg, sid, agent, task, ls[..|ls| - 1]);
      TeamStepKeepsAuthority(cfg, TeamSteps(cfg, TeamBoot(cfg, sid, agent, task), ls[..|ls| - 1]).value, ls[|ls| - 1]);
    }
  }

  // ------------------------------------------------------------------ the theorem

  /** Every agent from the root down to this one grants the tool and its classification. */
  ghost predicate GrantedAllTheWay(cfg: Config, agent: string, name: string) {
    exists path :: GrantedOnPath(cfg, agent, name, path)
  }

  predicate GrantedOnPath(cfg: Config, agent: string, name: string, path: seq<string>) {
    && IsPath(cfg.team.edges, cfg.team.root.name, path, agent) && OnTeam(cfg.team, path)
    && name in cfg.setupOf(agent).tools
    && var level := cfg.setupOf(agent).tools[name].classification;
       forall i :: 0 <= i < |path| ==>
         && Grants(cfg.host, NodeOf(cfg.team, path[i]).manifest, UseTool(name))
         && Grants(cfg.host, NodeOf(cfg.team, path[i]).manifest, Classified(level))
  }

  lemma PermittedIsGranted(cfg: Config, agent: string, name: string)
    requires SetupsAreEffective(cfg) && Authorized(cfg, {}, agent)
    requires name != DELEGATE && Permitted(cfg.setupOf(agent), name)
    ensures GrantedAllTheWay(cfg, agent, name)
  {
    hide Along, IsPath, ParentOf, ClassificationRank, ChildrenOf;
    var t := Unrevoked(cfg);
    var path :| GrantedAlong(cfg.host, t, path, agent);
    var eff := Along(cfg.host, t, path).value;
    var level := cfg.setupOf(agent).tools[name].classification;
    assert cfg.setupOf(agent).manifest == KernelManifest(cfg, agent, eff);
    assert Grants(cfg.host, eff, UseTool(name)) && Grants(cfg.host, eff, Classified(level));
    forall i | 0 <= i < |path|
      ensures Grants(cfg.host, NodeOf(cfg.team, path[i]).manifest, UseTool(name))
      ensures Grants(cfg.host, NodeOf(cfg.team, path[i]).manifest, Classified(level))
    {
      EffectiveIsWithinEveryAncestor(cfg.host, t, path, agent, i, UseTool(name));
      EffectiveIsWithinEveryAncestor(cfg.host, t, path, agent, i, Classified(level));
    }
    assert GrantedOnPath(cfg, agent, name, path);
  }

  ghost predicate StartsGranted(cfg: Config, agent: string, started: seq<Call>) {
    forall i :: 0 <= i < |started| && started[i].name != DELEGATE ==> GrantedAllTheWay(cfg, agent, started[i].name)
  }

  lemma StartsAreGranted(cfg: Config, agent: string, started: seq<Call>)
    requires SetupsAreEffective(cfg) && Authorized(cfg, {}, agent) && AllPermitted(cfg.setupOf(agent), started)
    ensures StartsGranted(cfg, agent, started)
  {
    hide SetupsAreEffective, Authorized, Permitted, GrantedAllTheWay;
    forall i | 0 <= i < |started| && started[i].name != DELEGATE
      ensures GrantedAllTheWay(cfg, agent, started[i].name)
    {
      PermittedIsGranted(cfg, agent, started[i].name);
    }
  }

  /** In a team run whose lead has authority: every tool that was started in any session, live or returned,
      apart from the framework's own, is granted by every agent on the delegation path from the root to that
      session's agent, and so is its classification. */
  lemma NoSessionOutgrowsItsPath(cfg: Config, sid: string, agent: string, task: string, ls: seq<TeamLabel>)
    requires SetupsAreEffective(cfg) && Authorized(cfg, {}, agent) && TeamReached(cfg, sid, agent, task, ls)
    ensures var ts := TeamSteps(cfg, TeamBoot(cfg, sid, agent, task), ls).value;
      && (forall i :: 0 <= i < |ts.stack| ==> StartsGranted(cfg, ts.stack[i].agent, ts.stack[i].conf.started))
      && (forall s :: s in ts.returned ==> StartsGranted(cfg, ts.returned[s].0, ts.returned[s].1.started))
  {
    hide TeamSteps, TeamBoot, TeamInv, AgentsHaveAuthority, SetupsAreEffective, Authorized, StartsGranted;
    ReachedAuthority(cfg, sid, agent, task, ls);
    TeamReachedInv(cfg, sid, agent, task, ls);
    AllStartsGranted(cfg, TeamSteps(cfg, TeamBoot(cfg, sid, agent, task), ls).value);
  }

  lemma AllStartsGranted(cfg: Config, ts: TeamState)
    requires SetupsAreEffective(cfg) && AgentsHaveAuthority(cfg, ts) && TeamInv(cfg, ts)
    ensures forall i :: 0 <= i < |ts.stack| ==> StartsGranted(cfg, ts.stack[i].agent, ts.stack[i].conf.started)
    ensures forall s :: s in ts.returned ==> StartsGranted(cfg, ts.returned[s].0, ts.returned[s].1.started)
  {
    hide SetupsAreEffective, Authorized, StartsGranted, RowsOk, MembersOk, Linked, Inv, JobOk, LedgerOk, AllPermitted,
         FinalizedLate, WithinLimit, Classify, AtMostOnce, GatesKept;
    forall i | 0 <= i < |ts.stack|
      ensures StartsGranted(cfg, ts.stack[i].agent, ts.stack[i].conf.started)
    {
      assert FrameOk(cfg, ts.revoked, ts.stack[i]);
      StartsAreGranted(cfg, ts.stack[i].agent, ts.stack[i].conf.started);
    }
    forall s | s in ts.returned
      ensures StartsGranted(cfg, ts.returned[s].0, ts.returned[s].1.started)
    {
      StartsAreGranted(cfg, ts.returned[s].0, ts.returned[s].1.started);
    }
  }
}
