/** What a parent's record of its children means (scr/team.py): every verdict in a session's ledger is about
    a child session that has returned, and is the right one; and every returned child has its verdict. */
module TeamEvidence {
  import opened Basics
  import opened State
  import opened KernelSpec
  import opened Machine
  import opened Safety
  import opened Permission
  import opened Orchestration
  import opened TeamMachine
  import opened TeamSafety

  // ------------------------------------------------------------------ verdicts

  function MarkedDenied(child: string): Event {
    PolicyLogged(child, "no_redelegate_after_denial", "marked_denied")
  }

  function NotCounted(child: string): Event {
    PolicyLogged(child, "require_nonempty_result", "not_counted")
  }

  predicate IsVerdict(ev: Event) {
    ev.PolicyLogged? && (ev == MarkedDenied(ev.child) || ev == NotCounted(ev.child) || ev == Completed(ev.child))
  }

  predicate SomeDenied(ledger: seq<Event>) {
    exists i :: 0 <= i < |ledger| && ledger[i].CapDenied?
  }

  predicate SomeExecuted(ledger: seq<Event>) {
    exists i :: 0 <= i < |ledger| && ledger[i].ToolExec?
  }

  /** What a session that has left hands back: its text, or why it stopped if it has none. */
  function Delivered(r: Conf): string
    requires r.phase.Do? && r.phase.next.Leave?
  {
    var text, reason := r.phase.next.text, r.phase.next.reason;
    if text != "" || reason == "completed" then text else "CHILD STOPPED [" + reason + "]"
  }

  predicate HasLeft(r: Conf) {
    r.phase.Do? && r.phase.ws == [] && r.phase.next.Leave?
  }

  /** The verdict on a child that has returned, under its parent's policy: denied exactly if its tool calls met
      a denial and none was executed; else empty-handed exactly if the policy asks for a result and there is
      none; else completed. */
  predicate Deserved(cfg: Config, agent: string, r: Conf, ev: Event) {
    && IsVerdict(ev) && HasLeft(r)
    && var denied := SomeDenied(r.db.ledger) && !SomeExecuted(r.db.ledger);
       var empty := cfg.policyOf(agent).needNonempty && cfg.blank(Delivered(r));
       && (ev == MarkedDenied(ev.child) <==> denied)
       && (ev == NotCounted(ev.child) <==> !denied && empty)
       && (ev == Completed(ev.child) <==> !denied && !empty)
  }

  lemma AbsorbedAsDeserved(cfg: Config, f: Frame, r: Conf)
    requires f.job.Waiting? && HasLeft(r)
    ensures var g := Absorb(cfg, f, r.db.ledger, r.phase.next.text, r.phase.next.reason);
      && g.agent == f.agent && g.conf == f.conf && g.job.Writing? && |g.job.events| == 2
      && Deserved(cfg, f.agent, r, g.job.events[0]) && g.job.events[0].child == f.job.child
      && g.job.events[1] == MailLogged(f.job.child, f.agent, "result", Delivered(r))
  {
  }

  // ------------------------------------------------------------------ the invariant

  /** Row j is of a session that this one delegated to, of this agent, and that has returned. */
  predicate ReturnedChild(ts: TeamState, j: nat, parent: string, child: string) {
    && j < |ts.members| && ts.members[j].parent == Some(parent) && ts.members[j].agent == child
    && ts.members[j].sid in ts.returned && ts.returned[ts.members[j].sid].0 == child
  }

  predicate Witness(cfg: Config, ts: TeamState, j: nat, sid: string, agent: string, ev: Event) {
    && IsVerdict(ev) && ReturnedChild(ts, j, sid, ev.child)
    && Deserved(cfg, agent, ts.returned[ts.members[j].sid].1, ev)
  }

  ghost predicate Explained(cfg: Config, ts: TeamState, sid: string, agent: string, events: seq<Event>) {
    forall ev :: ev in events && IsVerdict(ev) ==> exists j: nat :: Witness(cfg, ts, j, sid, agent, ev)
  }

  predicate LiveAs(f: Frame, sid: string, agent: string, ev: Event) {
    f.conf.db.sid == sid && f.agent == agent && ev in Logged(f)
  }

  /** The session's ledger holds the event, or will as soon as the delegate function has written it. */
  predicate InSession(ts: TeamState, sid: string, agent: string, ev: Event) {
    || (exists i :: 0 <= i < |ts.stack| && LiveAs(ts.stack[i], sid, agent, ev))
    || (sid in ts.returned && ts.returned[sid].0 == agent && ev in ts.returned[sid].1.db.ledger)
  }

  ghost predicate HasVerdict(cfg: Config, ts: TeamState, m: Member)
    requires m.parent.Some? && m.sid in ts.returned
  {
    exists agent, ev ::
      InSession(ts, m.parent.value, agent, ev) && VerdictOn(cfg, agent, ts.returned[m.sid].1, m.agent, ev)
  }

  predicate VerdictOn(cfg: Config, agent: string, r: Conf, child: string, ev: Event) {
    Deserved(cfg, agent, r, ev) && ev.child == child
  }

  ghost predicate AllHaveVerdicts(cfg: Config, ts: TeamState) {
    forall j :: 0 <= j < |ts.members| && ts.members[j].parent.Some? && ts.members[j].sid in ts.returned ==>
      HasVerdict(cfg, ts, ts.members[j])
  }

  predicate ChildRow(m: Member, child: Frame, parent: Frame) {
    m.sid == child.conf.db.sid && m.agent == child.agent && m.parent == Some(parent.conf.db.sid)
  }

  predicate HasChildRow(members: seq<Member>, child: Frame, parent: Frame) {
    exists j :: 0 <= j < |members| && ChildRow(members[j], child, parent)
  }

  /** Each session above another is its child's parent in the rows. */
  predicate Parentage(ts: TeamState) {
    forall i :: 0 < i < |ts.stack| ==> HasChildRow(ts.members, ts.stack[i], ts.stack[i - 1])
  }

  /** Live sessions are distinct and none has returned; what has returned has a row. */
  ghost predicate Apart(ts: TeamState) {
    && (forall i :: 0 <= i < |ts.stack| ==> ts.stack[i].conf.db.sid !in ts.returned)
    && (forall i, j :: 0 <= i < j < |ts.stack| ==> ts.stack[i].conf.db.sid != ts.stack[j].conf.db.sid)
    && (forall sid :: sid in ts.returned ==> SidUsed(ts, sid))
    && (forall i :: 0 <= i < |ts.stack| ==> SidUsed(ts, ts.stack[i].conf.db.sid))
  }

  ghost predicate LiveExplained(cfg: Config, ts: TeamState) {
    forall i :: 0 <= i < |ts.stack| ==>
      Explained(cfg, ts, ts.stack[i].conf.db.sid, ts.stack[i].agent, Logged(ts.stack[i]))
  }

  ghost predicate ReturnedExplained(cfg: Config, ts: TeamState) {
    forall sid :: sid in ts.returned ==>
      Explained(cfg, ts, sid, ts.returned[sid].0, ts.returned[sid].1.db.ledger)
  }

  ghost predicate EvidenceInv(cfg: Config, ts: TeamState) {
    && LiveExplained(cfg, ts) && ReturnedExplained(cfg, ts) && AllHaveVerdicts(cfg, ts)
    && Parentage(ts) && Apart(ts)
  }

  // ------------------------------------------------------------------ rows stay

  /** Rows and returned sessions are only added. */
  predicate Later(ts: TeamState, ts': TeamState) {
    && ts.members <= ts'.members
    && forall sid :: sid in ts.returned ==> sid in ts'.returned && ts'.returned[sid] == ts.returned[sid]
  }

  lemma ExplainedStays(cfg: Config, ts: TeamState, ts': TeamState, sid: string, agent: string, events: seq<Event>)
    requires Later(ts, ts') && Explained(cfg, ts, sid, agent, events)
    ensures Explained(cfg, ts', sid, agent, events)
  {
    hide Deserved, IsVerdict;
    forall ev | ev in events && IsVerdict(ev)
      ensures exists j: nat :: Witness(cfg, ts', j, sid, agent, ev)
    {
      var j: nat :| Witness(cfg, ts, j, sid, agent, ev);
      assert Witness(cfg, ts', j, sid, agent, ev);
    }
  }

  /** The same verdicts in both, and nothing lost. */
  predicate SameVerdicts(a: seq<Event>, b: seq<Event>) {
    && (forall ev :: ev in a ==> ev in b)
    && (forall ev :: ev in b && IsVerdict(ev) ==> ev in a)
  }

  lemma ExplainedSame(cfg: Config, ts: TeamState, sid: string, agent: string, a: seq<Event>, b: seq<Event>)
    requires Explained(cfg, ts, sid, agent, a) && SameVerdicts(a, b)
    ensures Explained(cfg, ts, sid, agent, b)
  {
    hide Witness, IsVerdict;
  }

  // ------------------------------------------------------------------ one session goes on

  /** A step that changes one live session and adds no verdict to it. */
  predicate GoesOn(ts: TeamState, ts': TeamState, i: nat) {
    && i < |ts.stack| == |ts'.stack| && ts'.members == ts.members && ts'.returned == ts.returned
    && (forall j :: 0 <= j < |ts.stack| && j != i ==> ts'.stack[j] == ts.stack[j])
    && var f, f' := ts.stack[i], ts'.stack[i];
       && f'.conf.db.sid == f.conf.db.sid && f'.agent == f.agent && SameVerdicts(Logged(f), Logged(f'))
  }

  lemma GoesOnInSession(ts: TeamState, ts': TeamState, i: nat, sid: string, agent: string, ev: Event)
    requires GoesOn(ts, ts', i) && InSession(ts, sid, agent, ev)
    ensures InSession(ts', sid, agent, ev)
  {
    hide Logged, IsVerdict;
    if j :| 0 <= j < |ts.stack| && LiveAs(ts.stack[j], sid, agent, ev) {
      assert LiveAs(ts'.stack[j], sid, agent, ev);
    }
  }

  lemma GoesOnKeeps(cfg: Config, ts: TeamState, ts': TeamState, i: nat)
    requires EvidenceInv(cfg, ts) && GoesOn(ts, ts', i)
    ensures EvidenceInv(cfg, ts')
  {
    hide Explained, SameVerdicts, InSession, VerdictOn, HasChildRow;
    forall j | 0 <= j < |ts'.stack|
      ensures Explained(cfg, ts', ts'.stack[j].conf.db.sid, ts'.stack[j].agent, Logged(ts'.stack[j]))
    {
      var f := ts.stack[j];
      ExplainedStays(cfg, ts, ts', f.conf.db.sid, f.agent, Logged(f));
      if j == i {
        ExplainedSame(cfg, ts', f.conf.db.sid, f.agent, Logged(f), Logged(ts'.stack[j]));
      }
    }
    forall sid | sid in ts'.returned
      ensures Explained(cfg, ts', sid, ts'.returned[sid].0, ts'.returned[sid].1.db.ledger)
    {
      ExplainedStays(cfg, ts, ts', sid, ts.returned[sid].0, ts.returned[sid].1.db.ledger);
    }
    forall j | 0 <= j < |ts'.members| && ts'.members[j].parent.Some? && ts'.members[j].sid in ts'.returned
      ensures HasVerdict(cfg, ts', ts'.members[j])
    {
      GoesOnVerdict(cfg, ts, ts', i, ts.members[j]);
    }
    GoesOnRows(ts, ts', i);
  }

  lemma GoesOnVerdict(cfg: Config, ts: TeamState, ts': TeamState, i: nat, m: Member)
    requires GoesOn(ts, ts', i) && m.parent.Some? && m.sid in ts.returned && HasVerdict(cfg, ts, m)
    ensures HasVerdict(cfg, ts', m)
  {
    hide InSession, VerdictOn, SameVerdicts;
    var agent, ev :| InSession(ts, m.parent.value, agent, ev)
                     && VerdictOn(cfg, agent, ts.returned[m.sid].1, m.agent, ev);
    GoesOnInSession(ts, ts', i, m.parent.value, agent, ev);
  }

  lemma GoesOnRows(ts: TeamState, ts': TeamState, i: nat)
    requires GoesOn(ts, ts', i) && Parentage(ts) && Apart(ts)
    ensures Parentage(ts') && Apart(ts')
  {
    hide SameVerdicts;
    assert forall j :: 0 <= j < |ts.stack| ==> ts'.stack[j].conf.db.sid == ts.stack[j].conf.db.sid;
    forall j | 0 < j < |ts'.stack|
      ensures HasChildRow(ts'.members, ts'.stack[j], ts'.stack[j - 1])
    {
      assert HasChildRow(ts.members, ts.stack[j], ts.stack[j - 1]);
      var m :| 0 <= m < |ts.members| && ChildRow(ts.members[m], ts.stack[j], ts.stack[j - 1]);
      assert ChildRow(ts'.members[m], ts'.stack[j], ts'.stack[j - 1]);
    }
    assert forall sid :: SidUsed(ts, sid) ==> SidUsed(ts', sid);
  }

  // ------------------------------------------------------------------ which steps these are

  lemma ReplacedTop(ts: TeamState, f: Frame)
    requires ts.stack != []
    requires var g := Innermost(ts);
      f.conf.db.sid == g.conf.db.sid && f.agent == g.agent && SameVerdicts(Logged(g), Logged(f))
    ensures GoesOn(ts, WithTop(ts, f), |ts.stack| - 1)
  {
    hide SameVerdicts;
  }

  lemma OneMoreEvent(a: seq<Event>, ev: Event, due: seq<Event>)
    requires !IsVerdict(ev)
    ensures SameVerdicts(a + due, a + [ev] + due)
  {
    hide IsVerdict;
    var b := a + [ev] + due;
    forall x | x in a + due
      ensures x in b
    {
      if x in a {
        assert x in a + [ev];
      }
    }
    forall x | x in b && IsVerdict(x)
      ensures x in a + due
    {
      if x !in due {
        assert x in a + [ev];
      }
    }
  }

  lemma SameEvents(a: seq<Event>)
    ensures SameVerdicts(a, a)
  {
  }

  lemma KernelEventIsNoVerdict(ev: Event)
    requires KernelEvent(ev) || ev.ApprovalLogged?
    ensures !IsVerdict(ev)
  {
  }

  lemma KernelStepGoesOn(cfg: Config, ts: TeamState, l: Label)
    requires TeamInv(cfg, ts) && TeamStep(cfg, ts, KernelStep(l)).Some?
    ensures GoesOn(ts, TeamStep(cfg, ts, KernelStep(l)).value, |ts.stack| - 1)
  {
    hide FrameOk, RowsOk, MembersOk, ReturnedOk, Step, SameVerdicts, Missing, JobOf;
    var f := Innermost(ts);
    TopIsNotWaiting(cfg, ts);
    KernelStepLogs(cfg, ts.revoked, f, l);
    var c := Step(cfg.setupOf(f.agent), cfg.guards, f.conf, l).value;
    StepKeepsSid(cfg.setupOf(f.agent), cfg.guards, f.conf, l);
    ReplacedTop(ts, f.(conf := c, job := JobOf(c.phase)));
  }

  lemma KernelStepLogs(cfg: Config, revoked: set<string>, f: Frame, l: Label)
    requires FrameOk(cfg, revoked, f) && Allowed(cfg, f, l)
    requires Step(cfg.setupOf(f.agent), cfg.guards, f.conf, l).Some?
    ensures var c := Step(cfg.setupOf(f.agent), cfg.guards, f.conf, l).value;
      SameVerdicts(Logged(f), Logged(f.(conf := c, job := JobOf(c.phase))))
  {
    hide Inv, StartsPermitted, JobOk, FinalizedLate, CountsOk, WithinLimit, ApplyAll, SameVerdicts, AllCompleted,
         AtProceed, AtAnswer, DoneWrites, AtExec, Missing;
    var k := cfg.setupOf(f.agent);
    var c := Step(k, cfg.guards, f.conf, l).value;
    var ledger := f.conf.db.ledger;
    assert Logged(f) == ledger && Logged(f.(conf := c, job := JobOf(c.phase))) == c.db.ledger;
    if l.Commit? && f.conf.phase.ws[0].Log? {
      var ev := f.conf.phase.ws[0].event;
      KernelEventIsNoVerdict(ev);
      OneMoreEvent(ledger, ev, []);
      assert ledger + [] == ledger && ledger + [ev] + [] == ledger + [ev];
    } else {
      SameEvents(ledger);
      if !l.Commit? {
        OnlyCommitsWrite(k, cfg.guards, f.conf, l);
      }
    }
  }

  lemma OnlyCommitsWrite(k: Setup, g: Guards, s: Conf, l: Label)
    requires OwnStep(l) && !l.Commit? && Step(k, g, s, l).Some?
    ensures Step(k, g, s, l).value.db == s.db
  {
    hide AtAnswer, DoneWrites, AtExec, ApplyAll;
  }

  lemma DecisionGoesOn(cfg: Config, ts: TeamState, i: nat, aid: ApprovalId, d: Decision, logged: bool)
    requires TeamStep(cfg, ts, DecideAt(i, aid, d, logged)).Some?
    ensures GoesOn(ts, TeamStep(cfg, ts, DecideAt(i, aid, d, logged)).value, i)
  {
    hide SameVerdicts;
    var f := ts.stack[i];
    var f' := TeamStep(cfg, ts, DecideAt(i, aid, d, logged)).value.stack[i];
    var ledger, due := f.conf.db.ledger, if f.job.Writing? then f.job.events else [];
    if logged {
      KernelEventIsNoVerdict(ApprovalLogged(aid, d));
      OneMoreEvent(ledger, ApprovalLogged(aid, d), due);
      assert Logged(f') == ledger + [ApprovalLogged(aid, d)] + due;
    } else {
      SameEvents(Logged(f));
      assert Logged(f') == Logged(f);
    }
  }

  lemma DecideGivesNoVerdict(cfg: Config, ts: TeamState, f: Frame, child: string, task: string)
    ensures var job := Decide(cfg, ts, f, child, task);
      job.Writing? && forall i :: 0 <= i < |job.events| ==> !IsVerdict(job.events[i])
  {
    hide Authorized, Unusable, ChildrenOf;
  }

  lemma NoVerdictsAdded(a: seq<Event>, b: seq<Event>)
    requires forall i :: 0 <= i < |b| ==> !IsVerdict(b[i])
    ensures SameVerdicts(a, a + b)
  {
    hide IsVerdict;
  }

  lemma JobGoesOn(cfg: Config, ts: TeamState, l: TeamLabel)
    requires TeamInv(cfg, ts) && TeamStep(cfg, ts, l).Some? && (l.JobGo? || l.JobWrite? || l.JobFinish?)
    ensures GoesOn(ts, TeamStep(cfg, ts, l).value, |ts.stack| - 1)
  {
    hide FrameOk, RowsOk, MembersOk, ReturnedOk, SameVerdicts, Decide, DoneWrites;
    var f := Innermost(ts);
    var f' := Innermost(TeamStep(cfg, ts, l).value);
    SameEvents(Logged(f));
    if l.JobGo? {
      var args := f.conf.phase.call.args;
      DecideGivesNoVerdict(cfg, ts, f, cfg.childOf(args), cfg.taskOf(args));
      NoVerdictsAdded(f.conf.db.ledger, f'.job.events);
      assert Logged(f) == f.conf.db.ledger;
    } else if l.JobWrite? {
      assert Logged(f') == Logged(f);
    } else {
      assert Logged(f') == Logged(f);
    }
    ReplacedTop(ts, f');
  }

  // ------------------------------------------------------------------ a child is launched

  /** A new session on top, with a new row. */
  predicate Pushed(ts: TeamState, ts': TeamState, h: Frame, row: Member) {
    && ts.stack != [] && ts' == ts.(stack := ts.stack + [h], members := ts.members + [row])
    && Logged(h) == [] && row.sid == h.conf.db.sid && row.agent == h.agent
    && row.parent == Some(Innermost(ts).conf.db.sid)
  }

  lemma PushedInSession(ts: TeamState, ts': TeamState, h: Frame, row: Member, sid: string, agent: string, ev: Event)
    requires Pushed(ts, ts', h, row) && InSession(ts, sid, agent, ev)
    ensures InSession(ts', sid, agent, ev)
  {
    hide LiveAs;
    if j :| 0 <= j < |ts.stack| && LiveAs(ts.stack[j], sid, agent, ev) {
      assert ts'.stack[j] == ts.stack[j];
    }
  }

  lemma PushedRows(ts: TeamState, ts': TeamState, h: Frame, row: Member)
    requires Pushed(ts, ts', h, row) && Parentage(ts) && Apart(ts) && !SidUsed(ts, row.sid)
    ensures Parentage(ts') && Apart(ts')
  {
    hide Logged;
    var n := |ts.stack|;
    assert forall j :: 0 <= j < |ts.members| ==> ts'.members[j] == ts.members[j];
    assert ts'.members[|ts.members|] == row && ts'.stack[n] == h;
    assert forall j :: 0 <= j < n ==> ts'.stack[j] == ts.stack[j];
    forall j | 0 < j < |ts'.stack|
      ensures HasChildRow(ts'.members, ts'.stack[j], ts'.stack[j - 1])
    {
      if j < n {
        assert HasChildRow(ts.members, ts.stack[j], ts.stack[j - 1]);
        var m :| 0 <= m < |ts.members| && ChildRow(ts.members[m], ts.stack[j], ts.stack[j - 1]);
        assert ChildRow(ts'.members[m], ts'.stack[j], ts'.stack[j - 1]);
      } else {
        assert ChildRow(ts'.members[|ts.members|], ts'.stack[n], ts'.stack[n - 1]);
      }
    }
    PushedApart(ts, ts', h, row);
  }

  lemma PushedApart(ts: TeamState, ts': TeamState, h: Frame, row: Member)
    requires Pushed(ts, ts', h, row) && Apart(ts) && !SidUsed(ts, row.sid)
    ensures Apart(ts')
  {
    hide Logged;
    assert forall j :: 0 <= j < |ts.members| ==> ts'.members[j] == ts.members[j];
    assert forall j :: 0 <= j < |ts.stack| ==> ts'.stack[j] == ts.stack[j];
    forall sid | SidUsed(ts, sid)
      ensures SidUsed(ts', sid)
    {
      var m :| 0 <= m < |ts.members| && ts.members[m].sid == sid;
      assert ts'.members[m].sid == sid;
    }
    assert ts'.members[|ts.members|].sid == row.sid;
    assert SidUsed(ts', row.sid);
    hide SidUsed;
  }

  lemma PushKeeps(cfg: Config, ts: TeamState, ts': TeamState, h: Frame, row: Member)
    requires EvidenceInv(cfg, ts) && Pushed(ts, ts', h, row) && !SidUsed(ts, row.sid)
    ensures EvidenceInv(cfg, ts')
  {
    hide Explained, InSession, VerdictOn, HasChildRow, Parentage, Apart, SidUsed;
    PushedRows(ts, ts', h, row);
    var n := |ts.stack|;
    forall j | 0 <= j < |ts'.stack|
      ensures Explained(cfg, ts', ts'.stack[j].conf.db.sid, ts'.stack[j].agent, Logged(ts'.stack[j]))
    {
      if j < n {
        var f := ts.stack[j];
        assert ts'.stack[j] == f;
        ExplainedStays(cfg, ts, ts', f.conf.db.sid, f.agent, Logged(f));
      } else {
        NothingToExplain(cfg, ts', h.conf.db.sid, h.agent);
      }
    }
    forall sid | sid in ts'.returned
      ensures Explained(cfg, ts', sid, ts'.returned[sid].0, ts'.returned[sid].1.db.ledger)
    {
      ExplainedStays(cfg, ts, ts', sid, ts.returned[sid].0, ts.returned[sid].1.db.ledger);
    }
    NewRowHasNotReturned(ts, row.sid);
    forall j | 0 <= j < |ts'.members| && ts'.members[j].parent.Some? && ts'.members[j].sid in ts'.returned
      ensures HasVerdict(cfg, ts', ts'.members[j])
    {
      assert ts'.members[j] == ts.members[j];
      PushedVerdict(cfg, ts, ts', h, row, ts.members[j]);
    }
  }

  lemma NothingToExplain(cfg: Config, ts: TeamState, sid: string, agent: string)
    ensures Explained(cfg, ts, sid, agent, [])
  {
  }

  lemma NewRowHasNotReturned(ts: TeamState, sid: string)
    requires Apart(ts) && !SidUsed(ts, sid)
    ensures sid !in ts.returned
  {
  }

  lemma PushedVerdict(cfg: Config, ts: TeamState, ts': TeamState, h: Frame, row: Member, m: Member)
    requires Pushed(ts, ts', h, row) && m.parent.Some? && m.sid in ts.returned && HasVerdict(cfg, ts, m)
    ensures HasVerdict(cfg, ts', m)
  {
    hide InSession, VerdictOn;
    var agent, ev :| InSession(ts, m.parent.value, agent, ev)
                     && VerdictOn(cfg, agent, ts.returned[m.sid].1, m.agent, ev);
    PushedInSession(ts, ts', h, row, m.parent.value, agent, ev);
  }

  lemma LaunchKeepsEvidence(cfg: Config, ts: TeamState, sid: string)
    requires TeamInv(cfg, ts) && EvidenceInv(cfg, ts) && TeamStep(cfg, ts, JobLaunch(sid)).Some?
    ensures EvidenceInv(cfg, TeamStep(cfg, ts, JobLaunch(sid)).value)
  {
    hide FrameOk, RowsOk, MembersOk, ReturnedOk, SameVerdicts, EvidenceInv, NewFrame, Authorized, SidUsed;
    var f := Innermost(ts);
    var child, task := f.job.next.child, f.job.next.task;
    SameEvents(Logged(f));
    if !Authorized(cfg, ts.revoked, child) {
      var f' := f.(job := Writing([], Finish(REFUSED_AT_START)));
      assert Logged(f') == Logged(f);
      ReplacedTop(ts, f');
      GoesOnKeeps(cfg, ts, WithTop(ts, f'), |ts.stack| - 1);
    } else {
      var parked := WithTop(ts, f.(job := Waiting(child, task)));
      assert Logged(Innermost(parked)) == Logged(f);
      ReplacedTop(ts, Innermost(parked));
      GoesOnKeeps(cfg, ts, parked, |ts.stack| - 1);
      NewFrameIsFresh(cfg, sid, child, f.depth + 1, task);
      SameMembersUsed(ts, parked, sid);
      PushKeeps(cfg, parked, TeamStep(cfg, ts, JobLaunch(sid)).value, NewFrame(cfg, sid, child, f.depth + 1, task),
                Member(sid, child, Some(f.conf.db.sid), f.depth + 1));
    }
  }

  lemma SameMembersUsed(ts: TeamState, ts': TeamState, sid: string)
    requires ts.members == ts'.members
    ensures SidUsed(ts, sid) == SidUsed(ts', sid)
  {
  }

  lemma NewFrameIsFresh(cfg: Config, sid: string, agent: string, depth: nat, task: string)
    ensures var h := NewFrame(cfg, sid, agent, depth, task);
      Logged(h) == [] && h.conf.db.sid == sid && h.agent == agent && !h.job.Waiting?
  {
  }

  // ------------------------------------------------------------------ a child returns

  /** The innermost session is collected, and its parent records the verdict. */
  predicate Popped(cfg: Config, ts: TeamState, ts': TeamState) {
    && |ts.stack| >= 2 && |ts'.stack| == |ts.stack| - 1 && ts'.members == ts.members
    && var n := |ts.stack| - 1;
       var f, p, g := ts.stack[n], ts.stack[n - 1], ts'.stack[n - 1];
       && (forall i :: 0 <= i < n - 1 ==> ts'.stack[i] == ts.stack[i])
       && ts'.returned == ts.returned[f.conf.db.sid := (f.agent, f.conf)]
       && Logged(f) == f.conf.db.ledger
       && g.conf.db.sid == p.conf.db.sid && g.agent == p.agent
       && |Logged(g)| == |Logged(p)| + 2 && Logged(p) <= Logged(g)
       && VerdictOn(cfg, p.agent, f.conf, f.agent, Logged(g)[|Logged(p)|]) && !IsVerdict(Logged(g)[|Logged(p)| + 1])
  }

  lemma PoppedInSession(cfg: Config, ts: TeamState, ts': TeamState, sid: string, agent: string, ev: Event)
    requires Popped(cfg, ts, ts') && Apart(ts) && InSession(ts, sid, agent, ev)
    ensures InSession(ts', sid, agent, ev)
  {
    hide Logged, VerdictOn, IsVerdict;
    var n := |ts.stack| - 1;
    if j :| 0 <= j < |ts.stack| && LiveAs(ts.stack[j], sid, agent, ev) {
      if j < n {
        assert LiveAs(ts'.stack[j], sid, agent, ev);
      }
    }
  }

  lemma PoppedLater(cfg: Config, ts: TeamState, ts': TeamState)
    requires Popped(cfg, ts, ts') && Apart(ts)
    ensures Later(ts, ts')
  {
    hide Logged, VerdictOn, IsVerdict;
  }

  lemma PoppedRows(cfg: Config, ts: TeamState, ts': TeamState)
    requires Popped(cfg, ts, ts') && Parentage(ts) && Apart(ts)
    ensures Parentage(ts') && Apart(ts')
  {
    hide Logged, VerdictOn, IsVerdict, Apart;
    PoppedApart(cfg, ts, ts');
    var n := |ts.stack| - 1;
    assert forall j :: 0 <= j < n ==> ts'.stack[j].conf.db.sid == ts.stack[j].conf.db.sid;
    assert forall j :: 0 <= j < n ==> ts'.stack[j].agent == ts.stack[j].agent;
    forall j | 0 < j < |ts'.stack|
      ensures HasChildRow(ts'.members, ts'.stack[j], ts'.stack[j - 1])
    {
      assert HasChildRow(ts.members, ts.stack[j], ts.stack[j - 1]);
      var m :| 0 <= m < |ts.members| && ChildRow(ts.members[m], ts.stack[j], ts.stack[j - 1]);
      assert ChildRow(ts'.members[m], ts'.stack[j], ts'.stack[j - 1]);
    }
  }

  lemma PoppedApart(cfg: Config, ts: TeamState, ts': TeamState)
    requires Popped(cfg, ts, ts') && Apart(ts)
    ensures Apart(ts')
  {
    hide Logged, VerdictOn, IsVerdict;
    var n := |ts.stack| - 1;
    assert forall j :: 0 <= j < n ==> ts'.stack[j].conf.db.sid == ts.stack[j].conf.db.sid;
    assert forall sid :: SidUsed(ts, sid) ==> SidUsed(ts', sid);
    hide SidUsed;
  }

  lemma NewEventsAreLast(a: seq<Event>, b: seq<Event>, x: Event)
    requires a <= b && |b| == |a| + 2 && x in b && x !in a
    ensures x == b[|a|] || x == b[|a| + 1]
  {
    assert b == a + [b[|a|], b[|a| + 1]];
  }

  lemma DeservedIsVerdict(cfg: Config, agent: string, r: Conf, ev: Event)
    requires Deserved(cfg, agent, r, ev)
    ensures IsVerdict(ev)
  {
  }

  /** The parent's new verdict is about the child that just returned. */
  lemma ParentIsExplained(cfg: Config, ts: TeamState, ts': TeamState)
    requires Popped(cfg, ts, ts') && Parentage(ts) && Apart(ts) && LiveExplained(cfg, ts)
    ensures var g := ts'.stack[|ts'.stack| - 1]; Explained(cfg, ts', g.conf.db.sid, g.agent, Logged(g))
  {
    hide Deserved, Logged;
    var n := |ts.stack| - 1;
    var f, p, g := ts.stack[n], ts.stack[n - 1], ts'.stack[n - 1];
    PoppedLater(cfg, ts, ts');
    ExplainedStays(cfg, ts, ts', p.conf.db.sid, p.agent, Logged(p));
    assert HasChildRow(ts.members, f, p);
    var j :| 0 <= j < |ts.members| && ChildRow(ts.members[j], f, p);
    var ev := Logged(g)[|Logged(p)|];
    DeservedIsVerdict(cfg, p.agent, f.conf, ev);
    assert Witness(cfg, ts', j, p.conf.db.sid, p.agent, ev);
    forall x | x in Logged(g) && IsVerdict(x)
      ensures exists m: nat :: Witness(cfg, ts', m, g.conf.db.sid, g.agent, x)
    {
      if x !in Logged(p) {
        NewEventsAreLast(Logged(p), Logged(g), x);
      }
    }
  }

  lemma PopKeeps(cfg: Config, ts: TeamState, ts': TeamState)
    requires EvidenceInv(cfg, ts) && Popped(cfg, ts, ts')
    requires forall i, j :: 0 <= i < j < |ts.members| ==> ts.members[i].sid != ts.members[j].sid
    ensures EvidenceInv(cfg, ts')
  {
    hide Explained, InSession, VerdictOn, HasChildRow, Parentage, Apart, IsVerdict;
    PoppedRows(cfg, ts, ts');
    PoppedLater(cfg, ts, ts');
    ParentIsExplained(cfg, ts, ts');
    var n := |ts.stack| - 1;
    var f := ts.stack[n];
    forall j | 0 <= j < |ts'.stack|
      ensures Explained(cfg, ts', ts'.stack[j].conf.db.sid, ts'.stack[j].agent, Logged(ts'.stack[j]))
    {
      if j < n - 1 {
        assert ts'.stack[j] == ts.stack[j];
        ExplainedStays(cfg, ts, ts', ts.stack[j].conf.db.sid, ts.stack[j].agent, Logged(ts.stack[j]));
      }
    }
    forall sid | sid in ts'.returned
      ensures Explained(cfg, ts', sid, ts'.returned[sid].0, ts'.returned[sid].1.db.ledger)
    {
      if sid == f.conf.db.sid {
        ExplainedStays(cfg, ts, ts', sid, f.agent, Logged(f));
      } else {
        ExplainedStays(cfg, ts, ts', sid, ts.returned[sid].0, ts.returned[sid].1.db.ledger);
      }
    }
    forall j | 0 <= j < |ts'.members| && ts'.members[j].parent.Some? && ts'.members[j].sid in ts'.returned
      ensures HasVerdict(cfg, ts', ts'.members[j])
    {
      if ts.members[j].sid == f.conf.db.sid {
        ChildHasVerdict(cfg, ts, ts', j);
      } else {
        PoppedVerdict(cfg, ts, ts', ts.members[j]);
      }
    }
  }

  lemma ChildHasVerdict(cfg: Config, ts: TeamState, ts': TeamState, j: nat)
    requires Popped(cfg, ts, ts') && Parentage(ts) && j < |ts.members| && ts.members[j].parent.Some?
    requires forall i, k :: 0 <= i < k < |ts.members| ==> ts.members[i].sid != ts.members[k].sid
    requires ts.members[j].sid == ts.stack[|ts.stack| - 1].conf.db.sid
    ensures ts.members[j].sid in ts'.returned && HasVerdict(cfg, ts', ts.members[j])
  {
    hide VerdictOn, Logged, IsVerdict;
    var n := |ts.stack| - 1;
    var f, p, g := ts.stack[n], ts.stack[n - 1], ts'.stack[n - 1];
    assert HasChildRow(ts.members, f, p);
    var m :| 0 <= m < |ts.members| && ChildRow(ts.members[m], f, p);
    assert m == j;
    var ev := Logged(g)[|Logged(p)|];
    assert ev in Logged(g) && LiveAs(g, p.conf.db.sid, p.agent, ev);
    assert InSession(ts', p.conf.db.sid, p.agent, ev);
  }

  lemma PoppedVerdict(cfg: Config, ts: TeamState, ts': TeamState, m: Member)
    requires Popped(cfg, ts, ts') && Apart(ts) && m.parent.Some? && m.sid in ts.returned && HasVerdict(cfg, ts, m)
    ensures m.sid in ts'.returned && HasVerdict(cfg, ts', m)
  {
    hide InSession, VerdictOn, Logged, IsVerdict;
    PoppedLater(cfg, ts, ts');
    var agent, ev :| InSession(ts, m.parent.value, agent, ev)
                     && VerdictOn(cfg, agent, ts.returned[m.sid].1, m.agent, ev);
    PoppedInSession(cfg, ts, ts', m.parent.value, agent, ev);
  }

  lemma ReturnKeepsEvidence(cfg: Config, ts: TeamState)
    requires TeamInv(cfg, ts) && EvidenceInv(cfg, ts) && TeamStep(cfg, ts, JobReturn).Some?
    ensures EvidenceInv(cfg, TeamStep(cfg, ts, JobReturn).value)
  {
    hide LedgerOk, Inv, StartsPermitted, RowsOk, HasParentRow, ReturnedOk, EvidenceInv, Absorb, Deserved, IsVerdict;
    var n := |ts.stack| - 1;
    var f, p := ts.stack[n], ts.stack[n - 1];
    AbsorbedAsDeserved(cfg, p, f.conf);
    var g := Absorb(cfg, p, f.conf.db.ledger, f.conf.phase.next.text, f.conf.phase.next.reason);
    assert FrameOk(cfg, ts.revoked, f) && p.job.child == f.agent;
    assert Logged(f) == f.conf.db.ledger && Logged(p) == p.conf.db.ledger;
    assert g.job.events == [g.job.events[0], g.job.events[1]];
    assert Logged(g) == Logged(p) + [g.job.events[0], g.job.events[1]];
    MailIsNoVerdict(g.job.events[1]);
    PopKeeps(cfg, ts, TeamStep(cfg, ts, JobReturn).value);
  }

  lemma MailIsNoVerdict(ev: Event)
    requires ev.MailLogged?
    ensures !IsVerdict(ev)
  {
  }

  // ------------------------------------------------------------------ every run

  lemma TeamStepKeepsEvidence(cfg: Config, ts: TeamState, l: TeamLabel)
    requires TeamInv(cfg, ts) && EvidenceInv(cfg, ts) && TeamStep(cfg, ts, l).Some?
    ensures EvidenceInv(cfg, TeamStep(cfg, ts, l).value)
  {
    hide TeamInv, EvidenceInv, GoesOn, Step, Absorb, Decide, NewFrame, Authorized;
    match l {
      case KernelStep(kl) =>
        KernelStepGoesOn(cfg, ts, kl);
        GoesOnKeeps(cfg, ts, TeamStep(cfg, ts, l).value, |ts.stack| - 1);
      case DecideAt(i, aid, d, logged) =>
        DecisionGoesOn(cfg, ts, i, aid, d, logged);
        GoesOnKeeps(cfg, ts, TeamStep(cfg, ts, l).value, i);
      case JobLaunch(sid) => LaunchKeepsEvidence(cfg, ts, sid);
      case JobReturn => ReturnKeepsEvidence(cfg, ts);
      case RevokeAgent(name) => OnlyRowsMatter(cfg, ts, ts.(revoked := ts.revoked + {name}));
      case CancelTeam => OnlyRowsMatter(cfg, ts, ts.(cancelled := true));
      case _ =>
        JobGoesOn(cfg, ts, l);
        GoesOnKeeps(cfg, ts, TeamStep(cfg, ts, l).value, |ts.stack| - 1);
    }
  }

  lemma OnlyRowsMatter(cfg: Config, ts: TeamState, ts': TeamState)
    requires EvidenceInv(cfg, ts) && ts.stack != []
    requires ts'.stack == ts.stack && ts'.members == ts.members && ts'.returned == ts.returned
    ensures EvidenceInv(cfg, ts')
  {
    hide EvidenceInv;
    SameEvents(Logged(ts.stack[0]));
    assert GoesOn(ts, ts', 0);
    GoesOnKeeps(cfg, ts, ts', 0);
  }

  lemma BootEvidence(cfg: Config, sid: string, agent: string, task: string)
    ensures EvidenceInv(cfg, TeamBoot(cfg, sid, agent, task))
  {
    hide NewFrame, Witness;
    NewFrameIsFresh(cfg, sid, agent, 0, task);
    var ts := TeamBoot(cfg, sid, agent, task);
    assert ts.members[0].sid == sid && SidUsed(ts, sid);
  }

  lemma {:induction false} ReachedEvidence(cfg: Config, sid: string, agent: string, task: string, ls: seq<TeamLabel>)
    requires TeamReached(cfg, sid, agent, task, ls)
    ensures EvidenceInv(cfg, TeamSteps(cfg, TeamBoot(cfg, sid, agent, task), ls).value)
    decreases |ls|
  {
    hide TeamInv, TeamStep, EvidenceInv, TeamBoot;
    if ls == [] {
      BootEvidence(cfg, sid, agent, task);
    } else {
      ReachedEvidence(cfg, sid, agent, task, ls[..|ls| - 1]);
      TeamReachedInv(cfg, sid, agent, task, ls[..|ls| - 1]);
      TeamStepKeepsEvidence(cfg, TeamSteps(cfg, TeamBoot(cfg, sid, agent, task), ls[..|ls| - 1]).value, ls[|ls| - 1]);
    }
  }

  // ------------------------------------------------------------------ theorems

  lemma PrefixIsExplained(cfg: Config, ts: TeamState, sid: string, agent: string, a: seq<Event>, b: seq<Event>)
    requires Explained(cfg, ts, sid, agent, b) && a <= b
    ensures Explained(cfg, ts, sid, agent, a)
  {
    hide Witness, IsVerdict;
    assert forall ev :: ev in a ==> ev in b;
  }

  /** In every reachable state of a team run, of every session, live or returned: each verdict in its ledger
      is about a child session that it delegated to and that has returned, and is what that child deserves.
      A completion thus means that the child executed a tool or met no denial, and came back with a result
      if the policy asks for one. */
  lemma VerdictsAreDeserved(cfg: Config, sid: string, agent: string, task: string, ls: seq<TeamLabel>)
    requires TeamReached(cfg, sid, agent, task, ls)
    ensures var ts := TeamSteps(cfg, TeamBoot(cfg, sid, agent, task), ls).value;
      && (forall i :: 0 <= i < |ts.stack| ==>
            Explained(cfg, ts, ts.stack[i].conf.db.sid, ts.stack[i].agent, ts.stack[i].conf.db.ledger))
      && (forall s :: s in ts.returned ==> Explained(cfg, ts, s, ts.returned[s].0, ts.returned[s].1.db.ledger))
  {
    hide TeamSteps, TeamBoot, Explained, AllHaveVerdicts, Parentage, Apart;
    ReachedEvidence(cfg, sid, agent, task, ls);
    var ts := TeamSteps(cfg, TeamBoot(cfg, sid, agent, task), ls).value;
    forall i | 0 <= i < |ts.stack|
      ensures Explained(cfg, ts, ts.stack[i].conf.db.sid, ts.stack[i].agent, ts.stack[i].conf.db.ledger)
    {
      var f := ts.stack[i];
      PrefixIsExplained(cfg, ts, f.conf.db.sid, f.agent, f.conf.db.ledger, Logged(f));
    }
  }

  /** Conversely every returned child has the verdict that it deserves in its parent's ledger, or due there:
      it is marked denied exactly if it met a denial and executed nothing. */
  lemma ReturnedChildrenHaveVerdicts(cfg: Config, sid: string, agent: string, task: string, ls: seq<TeamLabel>)
    requires TeamReached(cfg, sid, agent, task, ls)
    ensures AllHaveVerdicts(cfg, TeamSteps(cfg, TeamBoot(cfg, sid, agent, task), ls).value)
  {
    hide TeamSteps, TeamBoot, LiveExplained, ReturnedExplained, AllHaveVerdicts, Parentage, Apart;
    ReachedEvidence(cfg, sid, agent, task, ls);
  }

  /** A child of this session and agent has returned, having executed a tool or met no denial, and with a
      result if the session's policy asks for one. */
  ghost predicate CameThrough(cfg: Config, ts: TeamState, sid: string, agent: string, child: string) {
    exists j: nat ::
      && ReturnedChild(ts, j, sid, child)
      && var r := ts.returned[ts.members[j].sid].1;
         && HasLeft(r) && (SomeExecuted(r.db.ledger) || !SomeDenied(r.db.ledger))
         && (cfg.policyOf(agent).needNonempty ==> !cfg.blank(Delivered(r)))
  }

  ghost predicate FinalMeansDone(cfg: Config, ts: TeamState, sid: string, agent: string, ledger: seq<Event>) {
    (exists i :: 0 <= i < |ledger| && ledger[i].FinalizeLogged?) ==>
      forall c :: c in cfg.policyOf(agent).required ==> CameThrough(cfg, ts, sid, agent, c)
  }

  lemma CompletionMeansDone(cfg: Config, ts: TeamState, sid: string, agent: string, ledger: seq<Event>)
    requires Explained(cfg, ts, sid, agent, ledger) && FinalizedLate(cfg.policyOf(agent).required, ledger)
    ensures FinalMeansDone(cfg, ts, sid, agent, ledger)
  {
    hide SomeExecuted, SomeDenied;
    var required := cfg.policyOf(agent).required;
    if i :| 0 <= i < |ledger| && ledger[i].FinalizeLogged? {
      forall c | c in required
        ensures CameThrough(cfg, ts, sid, agent, c)
      {
        var n :| 0 <= n < |required| && required[n] == c;
        assert Completed(required[n]) in ledger[..i];
        assert Completed(c) in ledger && IsVerdict(Completed(c));
        var j: nat :| Witness(cfg, ts, j, sid, agent, Completed(c));
      }
    }
  }

  /** What a finalized session of a team run stands for: every child that its policy requires has been
      delegated to by this very session and came through. */
  lemma FinalizedTeamsAreDone(cfg: Config, sid: string, agent: string, task: string, ls: seq<TeamLabel>)
    requires TeamReached(cfg, sid, agent, task, ls)
    ensures var ts := TeamSteps(cfg, TeamBoot(cfg, sid, agent, task), ls).value;
      && (forall i :: 0 <= i < |ts.stack| ==>
            FinalMeansDone(cfg, ts, ts.stack[i].conf.db.sid, ts.stack[i].agent, ts.stack[i].conf.db.ledger))
      && (forall s :: s in ts.returned ==>
            FinalMeansDone(cfg, ts, s, ts.returned[s].0, ts.returned[s].1.db.ledger))
  {
    hide TeamSteps, TeamBoot, TeamInv, EvidenceInv, FinalMeansDone;
    TeamReachedInv(cfg, sid, agent, task, ls);
    ReachedEvidence(cfg, sid, agent, task, ls);
    AllFinalsMeanDone(cfg, TeamSteps(cfg, TeamBoot(cfg, sid, agent, task), ls).value);
  }

  lemma AllFinalsMeanDone(cfg: Config, ts: TeamState)
    requires TeamInv(cfg, ts) && EvidenceInv(cfg, ts)
    ensures forall i :: 0 <= i < |ts.stack| ==>
      FinalMeansDone(cfg, ts, ts.stack[i].conf.db.sid, ts.stack[i].agent, ts.stack[i].conf.db.ledger)
    ensures forall s :: s in ts.returned ==>
      FinalMeansDone(cfg, ts, s, ts.returned[s].0, ts.returned[s].1.db.ledger)
  {
    hide Explained, FinalizedLate, FinalMeansDone, RowsOk, MembersOk, Linked, AllHaveVerdicts, Parentage, Apart, Inv,
         StartsPermitted, JobOk, CountsOk, WithinLimit, DueOk, Logged;
    forall i | 0 <= i < |ts.stack|
      ensures FinalMeansDone(cfg, ts, ts.stack[i].conf.db.sid, ts.stack[i].agent, ts.stack[i].conf.db.ledger)
    {
      var f := ts.stack[i];
      assert FrameOk(cfg, ts.revoked, f);
      LedgerIsLogged(f);
      PrefixIsExplained(cfg, ts, f.conf.db.sid, f.agent, f.conf.db.ledger, Logged(f));
      CompletionMeansDone(cfg, ts, f.conf.db.sid, f.agent, f.conf.db.ledger);
    }
    forall s | s in ts.returned
      ensures FinalMeansDone(cfg, ts, s, ts.returned[s].0, ts.returned[s].1.db.ledger)
    {
      CompletionMeansDone(cfg, ts, s, ts.returned[s].0, ts.returned[s].1.db.ledger);
    }
  }

  lemma LedgerIsLogged(f: Frame)
    ensures f.conf.db.ledger <= Logged(f)
  {
  }
}
