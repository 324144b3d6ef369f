/** Which tasks are delegated (scr/team.py, the checks of the delegate function): each child session starts
    with the task that its parent gave it, and under `no_redelegate_after_denial` no task is given again to
    an agent that met nothing but denials on it. */
module TeamTasks {
  import opened Basics
  import opened State
  import opened KernelSpec
  import opened Machine
  import opened Safety
  import opened Permission
  import opened Orchestration
  import opened TeamMachine
  import opened TeamSafety
  import opened TeamEvidence

  // ------------------------------------------------------------ the delegate function's checks

  /** The function delegates exactly if the team is not cancelled, the child is a delegate, one level further
      down is allowed, the policy does not rule it out, and the child has its authority. Then it records the
      delegation and the delivery of the task before it launches the child. */
  lemma DelegationIsDecidedExactly(cfg: Config, ts: TeamState, f: Frame, child: string, task: string)
    ensures var job, p := Decide(cfg, ts, f, child, task), cfg.policyOf(f.agent);
      && job.Writing?
      && (job.next.Launch? <==>
            && !ts.cancelled && child in ChildrenOf(cfg.team.edges, f.agent) && f.depth + 1 <= cfg.maxDepth
            && !(p.noRedelegate && (child, task) in f.denied)
            && (p.maxPerChild.Some? ==> CountOf(f, child) < p.maxPerChild.value)
            && Authorized(cfg, ts.revoked, child) && !Unusable(cfg, ts.revoked, child))
      && (job.next.Launch? ==>
            && job.next == Launch(child, task)
            && job.events == [Delegated(f.agent, child, f.depth + 1), MailLogged(f.agent, child, "task", task)])
      && (job.next.Finish? ==>
            forall i :: 0 <= i < |job.events| ==> !job.events[i].Delegated? && !job.events[i].MailLogged?)
  {
    hide Authorized, Unusable, ChildrenOf;
  }

  // ------------------------------------------------------------------ the first message

  function Due(p: Phase): seq<Write> {
    if p.Do? then p.ws else []
  }

  /** The session's first message is, or will be, the task it was given. */
  predicate StartsWith(s: Conf, task: string) {
    var messages := ApplyAll(s.db, Due(s.phase)).messages;
    messages != [] && messages[0] == UserMsg(task)
  }

  lemma {:induction false} MessagesGrow(s: Session, ws: seq<Write>)
    ensures s.messages <= ApplyAll(s, ws).messages
    decreases |ws|
  {
    if ws != [] {
      MessagesGrow(Apply(s, ws[0]), ws[1..]);
    }
  }

  lemma {:induction false} MessagesFrame(a: Session, b: Session, ws: seq<Write>)
    requires a.messages == b.messages
    ensures ApplyAll(a, ws).messages == ApplyAll(b, ws).messages
    decreases |ws|
  {
    if ws != [] {
      MessagesFrame(Apply(a, ws[0]), Apply(b, ws[0]), ws[1..]);
    }
  }

  lemma MoveKeepsTask(s: Conf, s': Conf, task: string)
    requires StartsWith(s, task) && Due(s.phase) == [] && s'.db == s.db
    ensures StartsWith(s', task)
  {
    hide ApplyAll;
    ApplyNone(s.db);
    MessagesGrow(s.db, Due(s'.phase));
  }

  lemma StepKeepsTask(k: Setup, g: Guards, s: Conf, l: Label, task: string)
    requires OwnStep(l) && Step(k, g, s, l).Some? && StartsWith(s, task)
    ensures StartsWith(Step(k, g, s, l).value, task)
  {
    hide AtProceed, AtAnswer, DoneWrites;
    if !l.Commit? {
      OnlyCommitsWrite(k, g, s, l);
      hide Step;
      MovesAreAtRest(k, g, s, l);
      MoveKeepsTask(s, Step(k, g, s, l).value, task);
    }
  }

  lemma MovesAreAtRest(k: Setup, g: Guards, s: Conf, l: Label)
    requires OwnStep(l) && !l.Commit? && Step(k, g, s, l).Some?
    ensures Due(s.phase) == []
  {
    hide AtProceed, AtAnswer, DoneWrites;
  }

  lemma OtherRowsKeepTask(s: Conf, db: Session, task: string)
    requires StartsWith(s, task) && db.messages == s.db.messages
    ensures StartsWith(s.(db := db), task)
  {
    hide ApplyAll;
    MessagesFrame(s.db, db, Due(s.phase));
  }

  // ------------------------------------------------------------------ the invariant

  /** Each live child works on what its parent waits for. */
  ghost predicate TasksMatch(ts: TeamState) {
    forall i :: 0 < i < |ts.stack| && ts.stack[i - 1].job.Waiting? ==>
      StartsWith(ts.stack[i].conf, ts.stack[i - 1].job.task)
  }

  /** A child of the session that met nothing but denials on the task. */
  predicate DeniedOn(ts: TeamState, j: nat, sid: string, child: string, task: string) {
    && ReturnedChild(ts, j, sid, child)
    && var db := ts.returned[ts.members[j].sid].1.db;
       && db.messages != [] && db.messages[0] == UserMsg(task)
       && SomeDenied(db.ledger) && !SomeExecuted(db.ledger)
  }

  /** The session remembers every such child. */
  ghost predicate DenialsKnown(ts: TeamState, f: Frame) {
    forall j: nat, child, task :: DeniedOn(ts, j, f.conf.db.sid, child, task) ==> (child, task) in f.denied
  }

  /** A delegation under way is of a task not denied before, if the policy asks for that. */
  predicate NotDeniedBefore(cfg: Config, f: Frame) {
    cfg.policyOf(f.agent).noRedelegate ==>
      && (f.job.Writing? && f.job.next.Launch? ==> (f.job.next.child, f.job.next.task) !in f.denied)
      && (f.job.Waiting? ==> (f.job.child, f.job.task) !in f.denied)
  }

  ghost predicate TasksInv(cfg: Config, ts: TeamState) {
    && TasksMatch(ts)
    && (forall i :: 0 <= i < |ts.stack| ==> DenialsKnown(ts, ts.stack[i]))
    && (forall i :: 0 <= i < |ts.stack| ==> NotDeniedBefore(cfg, ts.stack[i]))
  }

  /** One live session changes without returning or launching anything. */
  predicate WorksOn(ts: TeamState, ts': TeamState, i: nat) {
    && i < |ts.stack| == |ts'.stack| && ts'.members == ts.members && ts'.returned == ts.returned
    && (forall j :: 0 <= j < |ts.stack| && j != i ==> ts'.stack[j] == ts.stack[j])
    && var f, f' := ts.stack[i], ts'.stack[i];
       && f'.conf.db.sid == f.conf.db.sid && f'.agent == f.agent && f'.denied == f.denied
       && (f'.job.Waiting? ==> f'.job == f.job)
  }

  lemma WorkKeepsTasks(cfg: Config, ts: TeamState, ts': TeamState, i: nat)
    requires TasksInv(cfg, ts) && WorksOn(ts, ts', i) && NotDeniedBefore(cfg, ts'.stack[i])
    requires forall task :: StartsWith(ts.stack[i].conf, task) ==> StartsWith(ts'.stack[i].conf, task)
    ensures TasksInv(cfg, ts')
  {
    hide StartsWith, NotDeniedBefore, ReturnedChild, SomeDenied, SomeExecuted;
    forall j | 0 <= j < |ts'.stack|
      ensures DenialsKnown(ts', ts'.stack[j])
    {
      assert DenialsKnown(ts, ts.stack[j]);
      SameDenials(ts, ts', ts.stack[j], ts'.stack[j]);
    }
    forall j | 0 < j < |ts'.stack| && ts'.stack[j - 1].job.Waiting?
      ensures StartsWith(ts'.stack[j].conf, ts'.stack[j - 1].job.task)
    {
      assert ts.stack[j - 1].job == ts'.stack[j - 1].job;
    }
  }

  lemma SameDenials(ts: TeamState, ts': TeamState, f: Frame, f': Frame)
    requires DenialsKnown(ts, f) && ts'.members == ts.members && ts'.returned == ts.returned
    requires f'.conf.db.sid == f.conf.db.sid && f'.denied == f.denied
    ensures DenialsKnown(ts', f')
  {
    hide SomeDenied, SomeExecuted;
    forall j: nat, child, task | DeniedOn(ts', j, f'.conf.db.sid, child, task)
      ensures (child, task) in f'.denied
    {
      assert DeniedOn(ts, j, f.conf.db.sid, child, task);
    }
  }

  // ------------------------------------------------------------------ the steps

  lemma KernelStepKeepsTasks(cfg: Config, ts: TeamState, l: Label)
    requires TasksInv(cfg, ts) && TeamStep(cfg, ts, KernelStep(l)).Some?
    ensures TasksInv(cfg, TeamStep(cfg, ts, KernelStep(l)).value)
  {
    hide TasksInv, Step, StartsWith, Missing;
    var f, n := Innermost(ts), |ts.stack| - 1;
    var k := cfg.setupOf(f.agent);
    var ts' := TeamStep(cfg, ts, KernelStep(l)).value;
    StepKeepsSid(k, cfg.guards, f.conf, l);
    forall task | StartsWith(f.conf, task)
      ensures StartsWith(ts'.stack[n].conf, task)
    {
      StepKeepsTask(k, cfg.guards, f.conf, l, task);
    }
    WorkKeepsTasks(cfg, ts, ts', n);
  }

  lemma DecisionKeepsTasks(cfg: Config, ts: TeamState, i: nat, aid: ApprovalId, d: Decision, logged: bool)
    requires TasksInv(cfg, ts) && TeamStep(cfg, ts, DecideAt(i, aid, d, logged)).Some?
    ensures TasksInv(cfg, TeamStep(cfg, ts, DecideAt(i, aid, d, logged)).value)
  {
    hide StartsWith, DenialsKnown, TasksMatch;
    var ts' := TeamStep(cfg, ts, DecideAt(i, aid, d, logged)).value;
    var f := ts.stack[i];
    assert NotDeniedBefore(cfg, f);
    forall task | StartsWith(f.conf, task)
      ensures StartsWith(ts'.stack[i].conf, task)
    {
      OtherRowsKeepTask(f.conf, ts'.stack[i].conf.db, task);
    }
    WorkKeepsTasks(cfg, ts, ts', i);
  }

  lemma JobKeepsTasks(cfg: Config, ts: TeamState, l: TeamLabel)
    requires TasksInv(cfg, ts) && TeamStep(cfg, ts, l).Some? && (l.JobGo? || l.JobWrite? || l.JobFinish?)
    ensures TasksInv(cfg, TeamStep(cfg, ts, l).value)
  {
    hide StartsWith, Decide, DoneWrites, DenialsKnown, TasksMatch, Step;
    var f, n := Innermost(ts), |ts.stack| - 1;
    var ts' := TeamStep(cfg, ts, l).value;
    assert NotDeniedBefore(cfg, f);
    if l.JobGo? {
      var args := f.conf.phase.call.args;
      DelegationIsDecidedExactly(cfg, ts, f, cfg.childOf(args), cfg.taskOf(args));
    } else if l.JobFinish? {
      StepKeepsSid(cfg.setupOf(f.agent), cfg.guards, f.conf, Returns(f.job.next.text));
    }
    forall task | StartsWith(f.conf, task)
      ensures StartsWith(ts'.stack[n].conf, task)
    {
      if l.JobWrite? {
        OtherRowsKeepTask(f.conf, ts'.stack[n].conf.db, task);
      } else if l.JobFinish? {
        StepKeepsTask(cfg.setupOf(f.agent), cfg.guards, f.conf, Returns(f.job.next.text), task);
      }
    }
    WorkKeepsTasks(cfg, ts, ts', n);
  }

  lemma NewFrameStartsWith(cfg: Config, sid: string, agent: string, depth: nat, task: string)
    ensures var h := NewFrame(cfg, sid, agent, depth, task);
      StartsWith(h.conf, task) && h.denied == {} && h.job.NoJob? && h.conf.db.sid == sid && h.agent == agent
  {
    hide ApplyAll;
    var db, first := FreshSession(sid), PolicyWrites(agent, cfg.policyOf(agent));
    ApplyAllConcat(db, first, RunWrites(task));
    var at, ws := ApplyAll(db, first), RunWrites(task);
    ApplyTwo(at, ws[0], ws[1]);
    assert at.messages == [] by { QuietStart(db, first); }
  }

  lemma {:induction false} QuietStart(s: Session, ws: seq<Write>)
    requires forall i :: 0 <= i < |ws| ==> ws[i].Log?
    ensures ApplyAll(s, ws).messages == s.messages
    decreases |ws|
  {
    if ws != [] {
      QuietStart(Apply(s, ws[0]), ws[1..]);
    }
  }

  /** A new session has no children yet. */
  lemma NoChildrenYet(cfg: Config, ts: TeamState, sid: string, j: nat)
    requires MembersOk(cfg, ts.members) && !SidUsed(ts, sid) && j < |ts.members|
    ensures ts.members[j].parent != Some(sid)
  {
    hide ChildrenOf;
    if ts.members[j].parent.Some? {
      assert HasParentRow(cfg, ts.members, j);
      var m :| 0 <= m < j && ParentRow(cfg, ts.members[m], ts.members[j]);
      assert ts.members[m].sid != sid;
    }
  }

  lemma LaunchKeepsTasks(cfg: Config, ts: TeamState, sid: string)
    requires TeamInv(cfg, ts) && EvidenceInv(cfg, ts) && TasksInv(cfg, ts) && TeamStep(cfg, ts, JobLaunch(sid)).Some?
    ensures TasksInv(cfg, TeamStep(cfg, ts, JobLaunch(sid)).value)
  {
    hide FrameOk, RowsOk, MembersOk, ReturnedOk, StartsWith, NewFrame, Authorized, SidUsed, DenialsKnown, TasksMatch,
         EvidenceInv;
    var f, n := Innermost(ts), |ts.stack| - 1;
    var child, task := f.job.next.child, f.job.next.task;
    assert NotDeniedBefore(cfg, f);
    if !Authorized(cfg, ts.revoked, child) {
      WorkKeepsTasks(cfg, ts, TeamStep(cfg, ts, JobLaunch(sid)).value, n);
    } else {
      PushKeepsTasks(cfg, ts, TeamStep(cfg, ts, JobLaunch(sid)).value, sid);
    }
  }

  lemma PushKeepsTasks(cfg: Config, ts: TeamState, ts': TeamState, sid: string)
    requires EvidenceInv(cfg, ts) && TasksInv(cfg, ts) && MembersOk(cfg, ts.members)
    requires ts.stack != [] && !SidUsed(ts, sid)
    requires var f, n := Innermost(ts), |ts.stack| - 1;
      && f.job.Writing? && f.job.next.Launch?
      && ts' == ts.(stack := ts.stack[..n] + [f.(job := Waiting(f.job.next.child, f.job.next.task))]
                             + [NewFrame(cfg, sid, f.job.next.child, f.depth + 1, f.job.next.task)],
                    members := ts.members + [Member(sid, f.job.next.child, Some(f.conf.db.sid), f.depth + 1)])
    ensures TasksInv(cfg, ts')
  {
    hide StartsWith, NewFrame, MembersOk, LiveExplained, ReturnedExplained, AllHaveVerdicts, Parentage, Apart, SidUsed;
    var f, n := Innermost(ts), |ts.stack| - 1;
    var child, task := f.job.next.child, f.job.next.task;
    NewFrameStartsWith(cfg, sid, child, f.depth + 1, task);
    NewRowHasNotReturned(ts, sid);
    assert ts'.stack[n] == f.(job := Waiting(child, task));
    assert ts'.stack[n + 1] == NewFrame(cfg, sid, child, f.depth + 1, task);
    assert forall j :: 0 <= j < n ==> ts'.stack[j] == ts.stack[j];
    forall i | 0 <= i < |ts'.stack|
      ensures DenialsKnown(ts', ts'.stack[i]) && NotDeniedBefore(cfg, ts'.stack[i])
    {
      if i <= n {
        assert DenialsKnown(ts, ts.stack[i]) && NotDeniedBefore(cfg, ts.stack[i]);
        NewRowDeniesNothing(ts, ts', ts.stack[i], ts'.stack[i]);
      } else {
        NewSessionKnowsNothing(cfg, ts, ts', ts'.stack[i]);
      }
    }
  }

  lemma NewRowDeniesNothing(ts: TeamState, ts': TeamState, f: Frame, f': Frame)
    requires DenialsKnown(ts, f)
    requires ts'.returned == ts.returned && |ts'.members| == |ts.members| + 1 && ts.members <= ts'.members
    requires ts'.members[|ts.members|].sid !in ts.returned
    requires f'.conf.db.sid == f.conf.db.sid && f'.denied == f.denied
    ensures DenialsKnown(ts', f')
  {
    hide SomeDenied, SomeExecuted;
    forall j: nat, child, task | DeniedOn(ts', j, f'.conf.db.sid, child, task)
      ensures (child, task) in f'.denied
    {
      assert j < |ts.members| && ts'.members[j] == ts.members[j];
      assert DeniedOn(ts, j, f.conf.db.sid, child, task);
    }
  }

  lemma NewSessionKnowsNothing(cfg: Config, ts: TeamState, ts': TeamState, h: Frame)
    requires MembersOk(cfg, ts.members) && !SidUsed(ts, h.conf.db.sid) && h.conf.db.sid !in ts.returned
    requires ts'.returned == ts.returned && |ts'.members| == |ts.members| + 1 && ts.members <= ts'.members
    requires ts'.members[|ts.members|].sid == h.conf.db.sid && h.job.NoJob?
    ensures DenialsKnown(ts', h) && NotDeniedBefore(cfg, h)
  {
    hide SomeDenied, SomeExecuted, MembersOk, SidUsed;
    forall j: nat, child, task
      ensures !DeniedOn(ts', j, h.conf.db.sid, child, task)
    {
      if j < |ts.members| {
        assert ts'.members[j] == ts.members[j];
        NoChildrenYet(cfg, ts, h.conf.db.sid, j);
      }
    }
  }

  lemma ReturnKeepsTasks(cfg: Config, ts: TeamState)
    requires TeamInv(cfg, ts) && EvidenceInv(cfg, ts) && TasksInv(cfg, ts) && TeamStep(cfg, ts, JobReturn).Some?
    ensures TasksInv(cfg, TeamStep(cfg, ts, JobReturn).value)
  {
    hide FrameOk, RowsOk, ReturnedOk, HasParentRow, LiveExplained, ReturnedExplained, AllHaveVerdicts, StartsWith,
         DenialsKnown, Parentage, Apart, Absorb;
    var n := |ts.stack| - 1;
    var f, p := ts.stack[n], ts.stack[n - 1];
    var ts' := TeamStep(cfg, ts, JobReturn).value;
    assert StartsWith(f.conf, p.job.task) && p.job.child == f.agent;
    AbsorbRemembers(cfg, p, f.conf, f.agent);
    AbsorbShape(cfg, p, f.conf.db.ledger, f.conf.phase.next.text, f.conf.phase.next.reason);
    forall i | 0 <= i < |ts'.stack|
      ensures DenialsKnown(ts', ts'.stack[i]) && NotDeniedBefore(cfg, ts'.stack[i])
    {
      assert DenialsKnown(ts, ts.stack[i]) && NotDeniedBefore(cfg, ts.stack[i]);
      ReturnDenies(ts, ts', i);
    }
    assert forall i :: 0 <= i < n - 1 ==> ts'.stack[i] == ts.stack[i];
    assert ts'.stack[n - 1].conf == p.conf;
  }

  /** The parent remembers a child that met nothing but denials on its task. */
  lemma AbsorbRemembers(cfg: Config, p: Frame, r: Conf, child: string)
    requires p.job.Waiting? && HasLeft(r) && p.job.child == child && StartsWith(r, p.job.task)
    ensures var g := Absorb(cfg, p, r.db.ledger, r.phase.next.text, r.phase.next.reason);
      && g.job.Writing? && g.job.next.Finish? && p.denied <= g.denied && g.conf == p.conf && g.agent == p.agent
      && r.db.messages != [] && r.db.messages[0] == UserMsg(p.job.task)
      && (SomeDenied(r.db.ledger) && !SomeExecuted(r.db.ledger) ==> (child, p.job.task) in g.denied)
  {
    hide ApplyAll, ResultText;
    ApplyNone(r.db);
  }

  /** The innermost session has been collected; this one, if it waited for it, remembers a denial. */
  predicate Collected(ts: TeamState, ts': TeamState, i: nat) {
    && |ts.stack| >= 2 && |ts'.stack| == |ts.stack| - 1 && i < |ts'.stack| && ts'.members == ts.members
    && ts'.stack[i].conf.db.sid == ts.stack[i].conf.db.sid && ts.stack[i].denied <= ts'.stack[i].denied
    && var n := |ts.stack| - 1;
       var f, p := ts.stack[n], ts.stack[n - 1];
       && p.job.Waiting? && ts'.returned == ts.returned[f.conf.db.sid := (f.agent, f.conf)]
       && f.conf.db.messages != [] && f.conf.db.messages[0] == UserMsg(p.job.task)
       && (i == n - 1 && SomeDenied(f.conf.db.ledger) && !SomeExecuted(f.conf.db.ledger) ==>
             (f.agent, p.job.task) in ts'.stack[i].denied)
  }

  lemma ReturnDenies(ts: TeamState, ts': TeamState, i: nat)
    requires Collected(ts, ts', i)
    requires forall a, b :: 0 <= a < b < |ts.members| ==> ts.members[a].sid != ts.members[b].sid
    requires Parentage(ts) && Apart(ts) && DenialsKnown(ts, ts.stack[i])
    ensures DenialsKnown(ts', ts'.stack[i])
  {
    hide SomeDenied, SomeExecuted, SidUsed;
    var n := |ts.stack| - 1;
    var f, p := ts.stack[n], ts.stack[n - 1];
    forall j: nat, child, task | DeniedOn(ts', j, ts'.stack[i].conf.db.sid, child, task)
      ensures (child, task) in ts'.stack[i].denied
    {
      if ts.members[j].sid == f.conf.db.sid {
        assert HasChildRow(ts.members, f, p);
        var m :| 0 <= m < |ts.members| && ChildRow(ts.members[m], f, p);
        assert m == j;
        assert ts.stack[i].conf.db.sid == p.conf.db.sid;
      } else {
        assert DeniedOn(ts, j, ts.stack[i].conf.db.sid, child, task);
      }
    }
  }

  // ------------------------------------------------------------------ every run

  lemma TeamStepKeepsTasks(cfg: Config, ts: TeamState, l: TeamLabel)
    requires TeamInv(cfg, ts) && EvidenceInv(cfg, ts) && TasksInv(cfg, ts) && TeamStep(cfg, ts, l).Some?
    ensures TasksInv(cfg, TeamStep(cfg, ts, l).value)
  {
    hide TeamInv, EvidenceInv, TasksInv, Step, Absorb, Decide, NewFrame, Authorized;
    match l {
      case KernelStep(kl) => KernelStepKeepsTasks(cfg, ts, kl);
      case DecideAt(i, aid, d, logged) => DecisionKeepsTasks(cfg, ts, i, aid, d, logged);
      case JobLaunch(sid) => LaunchKeepsTasks(cfg, ts, sid);
      case JobReturn => ReturnKeepsTasks(cfg, ts);
      case RevokeAgent(name) => SameStackKeepsTasks(cfg, ts, ts.(revoked := ts.revoked + {name}));
      case CancelTeam => SameStackKeepsTasks(cfg, ts, ts.(cancelled := true));
      case _ => JobKeepsTasks(cfg, ts, l);
    }
  }

  lemma SameStackKeepsTasks(cfg: Config, ts: TeamState, ts': TeamState)
    requires TasksInv(cfg, ts) && ts.stack != []
    requires ts'.stack == ts.stack && ts'.members == ts.members && ts'.returned == ts.returned
    ensures TasksInv(cfg, ts')
  {
    hide StartsWith;
    assert NotDeniedBefore(cfg, ts.stack[0]);
    WorkKeepsTasks(cfg, ts, ts', 0);
  }

  lemma {:induction false} ReachedTasks(cfg: Config, sid: string, agent: string, task: string, ls: seq<TeamLabel>)
    requires TeamReached(cfg, sid, agent, task, ls)
    ensures TasksInv(cfg, TeamSteps(cfg, TeamBoot(cfg, sid, agent, task), ls).value)
    decreases |ls|
  {
    hide TeamInv, TeamStep, EvidenceInv, TasksInv, TeamBoot;
    if ls == [] {
      BootTasks(cfg, sid, agent, task);
    } else {
      ReachedTasks(cfg, sid, agent, task, ls[..|ls| - 1]);
      TeamReachedInv(cfg, sid, agent, task, ls[..|ls| - 1]);
      ReachedEvidence(cfg, sid, agent, task, ls[..|ls| - 1]);
      TeamStepKeepsTasks(cfg, TeamSteps(cfg, TeamBoot(cfg, sid, agent, task), ls[..|ls| - 1]).value, ls[|ls| - 1]);
    }
  }

  lemma BootTasks(cfg: Config, sid: string, agent: string, task: string)
    ensures TasksInv(cfg, TeamBoot(cfg, sid, agent, task))
  {
    hide NewFrame, StartsWith;
    NewFrameStartsWith(cfg, sid, agent, 0, task);
  }

  /** Whenever a team run launches a child session under `no_redelegate_after_denial`: no child of that
      session with the same agent and the same task has come back with denials and nothing executed. And
      every child session works on the task that its parent delegated. */
  lemma DeniedTasksAreNotRedelegated(cfg: Config, sid: string, agent: string, task: string, ls: seq<TeamLabel>,
                                     child: string)
    requires TeamReached(cfg, sid, agent, task, ls)
    requires TeamStep(cfg, TeamSteps(cfg, TeamBoot(cfg, sid, agent, task), ls).value, JobLaunch(child)).Some?
    ensures var ts := TeamSteps(cfg, TeamBoot(cfg, sid, agent, task), ls).value;
      var f := Innermost(ts);
      cfg.policyOf(f.agent).noRedelegate ==>
        forall j: nat :: !DeniedOn(ts, j, f.conf.db.sid, f.job.next.child, f.job.next.task)
    ensures TasksMatch(TeamSteps(cfg, TeamBoot(cfg, sid, agent, task), ls).value)
  {
    hide TeamSteps, TeamBoot, TasksMatch, DeniedOn, Authorized, NewFrame;
    ReachedTasks(cfg, sid, agent, task, ls);
    var ts := TeamSteps(cfg, TeamBoot(cfg, sid, agent, task), ls).value;
    assert DenialsKnown(ts, Innermost(ts)) && NotDeniedBefore(cfg, Innermost(ts));
  }
}
