/** Team-level crash recovery (`team_recover` in scr/team.py): every member session is recovered by
    itself, and what that reports after a crash anywhere in a team run. */
module TeamRecovery {
  import opened Basics
  import opened State
  import opened KernelSpec
  import opened Machine
  import opened Safety
  import opened CrashPoints
  import opened Kernel
  import opened TeamMachine
  import opened TeamSafety

  datatype Report = Report(agent: string, sid: string, depth: nat, status: Status)

  predicate DistinctSids(members: seq<Member>) {
    forall i, j :: 0 <= i < j < |members| ==> members[i].sid != members[j].sid
  }

  /** The session is one of the first n members. */
  predicate Among(members: seq<Member>, n: nat, sid: string)
    requires n <= |members|
  {
    exists i :: 0 <= i < n && members[i].sid == sid
  }

  function ReportOf(m: Member, db: Session): Report {
    Report(m.agent, m.sid, m.depth, Classify(db))
  }

  function Recovered(db: Session): Session {
    ApplyAll(db, RecoverWrites(db))
  }

  /** One report per member, in order, each of the rows as the crash left them: recovering one session
      changes neither another one's rows nor what is reported of it. */
  method TeamRecover<W>(k: Kernel<W>, members: seq<Member>) returns (reports: seq<Report>)
    requires DistinctSids(members) && k.store.Valid()
    modifies k.store
    ensures k.store.Valid()
    ensures |reports| == |members|
    ensures forall i :: 0 <= i < |members| ==> reports[i] == ReportOf(members[i], old(k.store.View(members[i].sid)))
    ensures forall i :: 0 <= i < |members| ==>
      k.store.View(members[i].sid) == Recovered(old(k.store.View(members[i].sid)))
    ensures forall sid :: !Among(members, |members|, sid) ==> k.store.View(sid) == old(k.store.View(sid))
  {
    hide Classify, RecoverWrites, ApplyAll, Store.View, Store.Valid;
    reports := [];
    for n := 0 to |members|
      invariant |reports| == n && k.store.Valid()
      invariant forall i :: 0 <= i < n ==> reports[i] == ReportOf(members[i], old(k.store.View(members[i].sid)))
      invariant forall i :: 0 <= i < n ==> k.store.View(members[i].sid) == Recovered(old(k.store.View(members[i].sid)))
      invariant forall sid :: !Among(members, n, sid) ==> k.store.View(sid) == old(k.store.View(sid))
    {
      var m := members[n];
      assert !Among(members, n, m.sid);
      var status := k.Recover(m.sid);
      reports := reports + [Report(m.agent, m.sid, m.depth, status)];
    }
  }

  // ------------------------------------------- every session's crash point

  ghost predicate FramesFit(cfg: Config, stack: seq<Frame>) {
    forall i :: 0 <= i < |stack| ==> FrameFits(cfg, stack[i])
  }

  ghost predicate FrameFits(cfg: Config, f: Frame) {
    Fits(cfg.setupOf(f.agent), f.conf)
  }

  lemma NewFrameFits(cfg: Config, sid: string, agent: string, depth: nat, task: string)
    ensures FrameFits(cfg, NewFrame(cfg, sid, agent, depth, task))
  {
    hide AllFit, ApplyAll, RunWrites;
    var k, db, first := cfg.setupOf(agent), FreshSession(sid), PolicyWrites(agent, cfg.policyOf(agent));
    QuietFits(k, db, first);
    RunFits(k, Conf(ApplyAll(db, first), Idle, []), task);
    FitsConcat(k, db, first, RunWrites(task));
  }

  lemma KernelStepFits(cfg: Config, f: Frame, l: Label)
    requires Inv(cfg.setupOf(f.agent), f.conf) && FrameFits(cfg, f)
    requires Step(cfg.setupOf(f.agent), cfg.guards, f.conf, l).Some?
    ensures Fits(cfg.setupOf(f.agent), Step(cfg.setupOf(f.agent), cfg.guards, f.conf, l).value)
  {
    hide Inv, Fits, Step;
    StepFits(cfg.setupOf(f.agent), cfg.guards, f.conf, l);
  }

  lemma LaunchFits(cfg: Config, ts: TeamState, sid: string)
    requires FramesFit(cfg, ts.stack) && TeamStep(cfg, ts, JobLaunch(sid)).Some?
    ensures FramesFit(cfg, TeamStep(cfg, ts, JobLaunch(sid)).value.stack)
  {
    hide Fits, NewFrame, Authorized, SidUsed;
    var f := Innermost(ts);
    assert FrameFits(cfg, f);
    NewFrameFits(cfg, sid, f.job.next.child, f.depth + 1, f.job.next.task);
    NewFrameIsOf(cfg, sid, f.job.next.child, f.depth + 1, f.job.next.task);
  }

  lemma ReturnFits(cfg: Config, ts: TeamState)
    requires FramesFit(cfg, ts.stack) && TeamStep(cfg, ts, JobReturn).Some?
    ensures FramesFit(cfg, TeamStep(cfg, ts, JobReturn).value.stack)
  {
    hide Fits, Absorb;
    var f, p := Innermost(ts), ts.stack[|ts.stack| - 2];
    assert FrameFits(cfg, p);
    AbsorbShape(cfg, p, f.conf.db.ledger, f.conf.phase.next.text, f.conf.phase.next.reason);
  }

  lemma TeamStepFits(cfg: Config, ts: TeamState, l: TeamLabel)
    requires TeamInv(cfg, ts) && FramesFit(cfg, ts.stack) && TeamStep(cfg, ts, l).Some?
    ensures FramesFit(cfg, TeamStep(cfg, ts, l).value.stack)
  {
    hide LedgerOk, JobOk, RowsOk, MembersOk, ReturnedOk, Linked, Inv, Fits, Step, Allowed, Absorb, Decide, NewFrame,
         Authorized, SidUsed;
    var f := Innermost(ts);
    assert FrameOk(cfg, ts.revoked, f) && FrameFits(cfg, f);
    match l {
      case KernelStep(kl) => KernelStepFits(cfg, f, kl);
      case DecideAt(i, aid, d, logged) =>
        assert FrameOk(cfg, ts.revoked, ts.stack[i]) && FrameFits(cfg, ts.stack[i]);
        KernelStepFits(cfg, ts.stack[i], Decided(aid, d, logged));
      case JobWrite => DecisionFits(cfg.setupOf(f.agent), f.conf, Apply(f.conf.db, Log(f.job.events[0])));
      case JobLaunch(sid) => LaunchFits(cfg, ts, sid);
      case JobReturn => ReturnFits(cfg, ts);
      case JobFinish => KernelStepFits(cfg, f, Returns(f.job.next.text));
      case _ =>
    }
  }

  lemma NewFrameIsOf(cfg: Config, sid: string, agent: string, depth: nat, task: string)
    ensures NewFrame(cfg, sid, agent, depth, task).agent == agent
  {
  }

  lemma {:induction false} TeamReachedFits(cfg: Config, sid: string, agent: string, task: string, ls: seq<TeamLabel>)
    requires TeamReached(cfg, sid, agent, task, ls)
    ensures FramesFit(cfg, TeamSteps(cfg, TeamBoot(cfg, sid, agent, task), ls).value.stack)
    decreases |ls|
  {
    hide TeamInv, TeamStep, NewFrame, FrameFits;
    if ls == [] {
      NewFrameFits(cfg, sid, agent, 0, task);
    } else {
      TeamReachedFits(cfg, sid, agent, task, ls[..|ls| - 1]);
      TeamReachedInv(cfg, sid, agent, task, ls[..|ls| - 1]);
      TeamStepFits(cfg, TeamSteps(cfg, TeamBoot(cfg, sid, agent, task), ls[..|ls| - 1]).value, ls[|ls| - 1]);
    }
  }

  /** Every live session's status at the crash, the innermost one's too. */
  lemma LiveCrashPoints(cfg: Config, sid: string, agent: string, task: string, ls: seq<TeamLabel>)
    requires TeamReached(cfg, sid, agent, task, ls)
    ensures var ts := TeamSteps(cfg, TeamBoot(cfg, sid, agent, task), ls).value;
      forall i :: 0 <= i < |ts.stack| ==> ReportsItsPoint(cfg, ts.stack[i])
  {
    hide TeamSteps, TeamBoot, Fits;
    TeamReachedFits(cfg, sid, agent, task, ls);
    var ts := TeamSteps(cfg, TeamBoot(cfg, sid, agent, task), ls).value;
    forall i | 0 <= i < |ts.stack|
      ensures ReportsItsPoint(cfg, ts.stack[i])
    {
      assert FrameFits(cfg, ts.stack[i]);
      FitsIsReported(cfg.setupOf(ts.stack[i].agent), ts.stack[i].conf);
    }
  }

  predicate ReportsItsPoint(cfg: Config, f: Frame) {
    var point := AtCrash(cfg.setupOf(f.agent), f.conf.phase);
    point.Some? ==> Classify(f.conf.db) == point.value
  }

  // ------------------------------------------------------------- a crashed run

  predicate RowIs(m: Member, f: Frame) {
    m.sid == f.conf.db.sid
  }

  /** The rows a crash of this team run leaves behind. */
  ghost predicate Holds(store: Store, ts: TeamState)
    reads store
  {
    && (forall i :: 0 <= i < |ts.stack| ==> store.View(ts.stack[i].conf.db.sid) == ts.stack[i].conf.db)
    && (forall s :: s in ts.returned ==> store.View(s) == ts.returned[s].1.db)
  }

  /** After a crash at any point of a team run: members that wait for a delegation are reported
      quarantined and marked for review, members that had returned are reported clean and left as they
      are, and the innermost one is reported as its own crash point says. There are no others. */
  method RecoverCrashedRun<W>(k: Kernel<W>, ts: TeamState, ghost cfg: Config, ghost sid: string, ghost agent: string,
                              ghost task: string, ghost ls: seq<TeamLabel>)
    returns (reports: seq<Report>)
    requires ValidConfig(cfg) && TeamReached(cfg, sid, agent, task, ls)
    requires ts == TeamSteps(cfg, TeamBoot(cfg, sid, agent, task), ls).value && Holds(k.store, ts)
    requires k.store.Valid()
    modifies k.store
    ensures |reports| == |ts.members|
    ensures forall j :: 0 <= j < |ts.members| ==>
      reports[j].sid == ts.members[j].sid && reports[j].agent == ts.members[j].agent
    ensures forall i, j :: 0 <= i < |ts.stack| - 1 && 0 <= j < |ts.members| && RowIs(ts.members[j], ts.stack[i]) ==>
      reports[j].status == Quarantined && k.store.View(ts.members[j].sid).status == "needs_review"
    ensures forall j :: 0 <= j < |ts.members| && ts.members[j].sid in ts.returned ==>
      reports[j].status == Clean && k.store.View(ts.members[j].sid) == old(k.store.View(ts.members[j].sid))
    ensures forall i, j :: 0 <= i < |ts.stack| && 0 <= j < |ts.members| && RowIs(ts.members[j], ts.stack[i]) ==>
      var point := AtCrash(cfg.setupOf(ts.stack[i].agent), ts.stack[i].conf.phase);
      point.Some? ==> reports[j].status == point.value
    ensures forall j :: 0 <= j < |ts.members| ==> Live(ts.stack, ts.members[j].sid) || ts.members[j].sid in ts.returned
  {
    hide TeamSteps, TeamBoot, Classify, RecoverWrites, ApplyAll, ValidConfig, AtCrash;
    LiveCrashPoints(cfg, sid, agent, task, ls);
    assert forall i :: 0 <= i < |ts.stack| ==> ReportsItsPoint(cfg, ts.stack[i]);
    CrashInNestedDelegation(cfg, sid, agent, task, ls);
    SessionsFormATree(cfg, sid, agent, task, ls);
    reports := TeamRecover(k, ts.members);
    forall j | 0 <= j < |ts.members|
      ensures var db := old(k.store.View(ts.members[j].sid));
        && (Classify(db) == Quarantined ==> Recovered(db).status == "needs_review")
        && (Classify(db) == Clean ==> Recovered(db) == db)
    {
      RecoverSettles(old(k.store.View(ts.members[j].sid)));
    }
  }
}
