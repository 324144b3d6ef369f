/** What holds at every point of a team run, and so at every point where the process may die. */
module TeamSafety {
  import opened Basics
  import opened Capability
  import opened State
  import opened KernelSpec
  import opened Machine
  import opened Safety
  import opened Permission
  import opened Orchestration
  import opened TeamMachine

  // -------------------------------------------------------------- ledger facts

  function Completed(child: string): Event {
    PolicyLogged(child, "required_children", "completed")
  }

  /** Every required child has its completion in the ledger. */
  predicate AllCompleted(required: seq<string>, ledger: seq<Event>) {
    forall i :: 0 <= i < |required| ==> Completed(required[i]) in ledger
  }

  /** A finalize event occurs only after all the required completions. */
  predicate FinalizedLate(required: seq<string>, ledger: seq<Event>) {
    forall i :: 0 <= i < |ledger| && ledger[i].FinalizeLogged? ==> AllCompleted(required, ledger[..i])
  }

  /** Delegations of this child. */
  function Delegations(ledger: seq<Event>, child: string): nat {
    if ledger == [] then 0
    else
      var n := |ledger| - 1;
      Delegations(ledger[..n], child) + (if ledger[n].Delegated? && ledger[n].child == child then 1 else 0)
  }

  predicate PlainEvent(ev: Event) {
    !(ev.Delegated? || ev.FinalizeLogged?)
  }

  lemma DelegationsSnoc(ledger: seq<Event>, ev: Event, child: string)
    ensures Delegations(ledger + [ev], child)
         == Delegations(ledger, child) + (if ev.Delegated? && ev.child == child then 1 else 0)
  {
    assert (ledger + [ev])[..|ledger|] == ledger;
  }

  lemma FinalizedLateSnoc(required: seq<string>, ledger: seq<Event>, ev: Event)
    requires FinalizedLate(required, ledger)
    requires ev.FinalizeLogged? ==> AllCompleted(required, ledger)
    ensures FinalizedLate(required, ledger + [ev])
  {
    var l := ledger + [ev];
    forall i | 0 <= i < |l| && l[i].FinalizeLogged?
      ensures AllCompleted(required, l[..i])
    {
      if i < |ledger| {
        assert l[..i] == ledger[..i];
      } else {
        assert l[..i] == ledger;
      }
    }
  }

  // -------------------------------------------------------------- the invariant

  /** The ledger as it will be once the delegate function's due events are written. */
  function Logged(f: Frame): seq<Event> {
    f.conf.db.ledger + (if f.job.Writing? then f.job.events else [])
  }

  predicate KernelEvent(ev: Event) {
    !(ev.Delegated? || ev.PolicyLogged?)
  }

  predicate DueOk(required: seq<string>, ledger: seq<Event>, p: Phase) {
    p.Do? ==> forall i :: 0 <= i < |p.ws| && p.ws[i].Log? ==>
      KernelEvent(p.ws[i].event) && (p.ws[i].event.FinalizeLogged? ==> AllCompleted(required, ledger))
  }

  /** The child whose delegation is under way. */
  function UnderWay(j: Job): Option<string> {
    match j
    case Writing(_, Launch(child, _)) => Some(child)
    case Waiting(child, _) => Some(child)
    case _ => None
  }

  /** A delegation event may be ahead of the counter by one: while the child runs, or for good once the
      child has been cut off between the two checks of its authority. */
  ghost predicate Ahead(cfg: Config, revoked: set<string>, f: Frame, child: string) {
    UnderWay(f.job) == Some(child) || !Authorized(cfg, revoked, child)
  }

  ghost predicate CountsOk(cfg: Config, revoked: set<string>, f: Frame) {
    forall child ::
      Delegations(Logged(f), child) <= CountOf(f, child) + (if Ahead(cfg, revoked, f, child) then 1 else 0)
  }

  ghost predicate WithinLimit(p: Policy, ledger: seq<Event>) {
    p.maxPerChild.Some? ==> forall child :: Delegations(ledger, child) <= p.maxPerChild.value
  }

  predicate JobOk(cfg: Config, f: Frame) {
    && (f.job.NoJob? <==> !(f.conf.phase.Running? && f.conf.phase.call.name == DELEGATE))
    && (f.job.Writing? ==> forall i :: 0 <= i < |f.job.events| ==> !f.job.events[i].FinalizeLogged?)
    && (UnderWay(f.job).Some? ==>
          UnderWay(f.job).value in ChildrenOf(cfg.team.edges, f.agent) && f.depth + 1 <= cfg.maxDepth)
  }

  ghost predicate LedgerOk(cfg: Config, revoked: set<string>, f: Frame) {
    && FinalizedLate(cfg.policyOf(f.agent).required, f.conf.db.ledger)
    && DueOk(cfg.policyOf(f.agent).required, f.conf.db.ledger, f.conf.phase)
    && (forall c :: c in f.completed ==> Completed(c) in Logged(f))
    && CountsOk(cfg, revoked, f)
    && WithinLimit(cfg.policyOf(f.agent), Logged(f))
  }

  ghost predicate FrameOk(cfg: Config, revoked: set<string>, f: Frame) {
    && Inv(cfg.setupOf(f.agent), f.conf) && StartsPermitted(cfg.setupOf(f.agent), f.conf)
    && f.depth <= cfg.maxDepth && JobOk(cfg, f) && LedgerOk(cfg, revoked, f)
  }

  /** Each parked session waits for the one above it. */
  predicate Linked(stack: seq<Frame>) {
    && (forall i :: 0 <= i < |stack| - 1 ==>
          && stack[i].job.Waiting? && stack[i].job.child == stack[i + 1].agent
          && stack[i + 1].depth == stack[i].depth + 1)
    && (stack != [] ==> !stack[|stack| - 1].job.Waiting?)
  }

  /** No non-idempotent call of the session was started twice, no gated one unapproved, and none that is
      not permitted. */
  predicate StartedSafely(k: Setup, s: Conf) {
    AtMostOnce(k, s.started) && GatesKept(k, s.db, s.started) && AllPermitted(k, s.started)
  }

  ghost predicate ReturnedOk(cfg: Config, sid: string, agent: string, s: Conf) {
    var db := s.db;
    && db.sid == sid && Classify(db) == Clean && StartedSafely(cfg.setupOf(agent), s)
    && FinalizedLate(cfg.policyOf(agent).required, db.ledger)
    && WithinLimit(cfg.policyOf(agent), db.ledger)
  }

  /** The rows of `team_sessions` form a tree along topology edges, no deeper than the limit. */
  predicate MembersOk(cfg: Config, members: seq<Member>) {
    && (forall i :: 0 <= i < |members| ==> members[i].depth <= cfg.maxDepth)
    && (forall i :: 0 <= i < |members| ==>
          && (members[i].depth == 0 <==> members[i].parent.None?)
          && (members[i].parent.Some? ==> HasParentRow(cfg, members, i)))
    && (forall i, j :: 0 <= i < j < |members| ==> members[i].sid != members[j].sid)
  }

  predicate HasParentRow(cfg: Config, members: seq<Member>, i: nat)
    requires i < |members| && members[i].parent.Some?
  {
    exists j :: 0 <= j < i && ParentRow(cfg, members[j], members[i])
  }

  /** The parent's row: one level up, joined by a topology edge. */
  predicate ParentRow(cfg: Config, p: Member, m: Member) {
    Some(p.sid) == m.parent && p.depth + 1 == m.depth && m.agent in ChildrenOf(cfg.team.edges, p.agent)
  }

  predicate RowOf(m: Member, f: Frame) {
    m.sid == f.conf.db.sid && m.agent == f.agent && m.depth == f.depth
  }

  predicate HasRow(members: seq<Member>, f: Frame) {
    exists j :: 0 <= j < |members| && RowOf(members[j], f)
  }

  predicate Live(stack: seq<Frame>, sid: string) {
    exists i :: 0 <= i < |stack| && stack[i].conf.db.sid == sid
  }

  /** Live sessions have their row; every row is of a live or of a returned session. */
  predicate RowsOk(ts: TeamState) {
    && (forall i :: 0 <= i < |ts.stack| ==> HasRow(ts.members, ts.stack[i]))
    && (forall j :: 0 <= j < |ts.members| ==> Live(ts.stack, ts.members[j].sid) || ts.members[j].sid in ts.returned)
  }

  ghost predicate TeamInv(cfg: Config, ts: TeamState) {
    && ts.stack != []
    && (forall i :: 0 <= i < |ts.stack| ==> FrameOk(cfg, ts.revoked, ts.stack[i]))
    && Linked(ts.stack)
    && (forall sid :: sid in ts.returned ==> ReturnedOk(cfg, sid, ts.returned[sid].0, ts.returned[sid].1))
    && MembersOk(cfg, ts.members) && RowsOk(ts)
  }

  // ------------------------------------------- the kernel's steps, as the team sees them

  /** Events the kernel logs outside its final answer. */
  predicate PlainWrites(ws: seq<Write>) {
    forall i :: 0 <= i < |ws| && ws[i].Log? ==> KernelEvent(ws[i].event) && !ws[i].event.FinalizeLogged?
  }

  lemma ExecIsPlain(k: Setup, db: Session, iteration: nat, calls: seq<Call>)
    ensures AtExec(k, db, iteration, calls).Do? ==> PlainWrites(AtExec(k, db, iteration, calls).ws)
  {
    hide Denial, EligibleRun;
  }

  lemma AnswerIsPlain(g: Guards, iteration: nat, attempt: nat, seqNo: nat, r: Reply)
    ensures AtAnswer(g, iteration, attempt, seqNo, r).Do? ==> PlainWrites(AtAnswer(g, iteration, attempt, seqNo, r).ws)
  {
  }

  lemma DoneIsPlain(call: Call, key: IdemKey, seqNo: nat, cached: bool, result: string, parallel: bool)
    ensures PlainWrites(DoneWrites(call, key, seqNo, cached, result, parallel))
  {
    hide IsToolError;
  }

  /** Kernel writes log neither delegations nor policy decisions, and a finalize event only from the
      final answer. */
  lemma ProceedIsPlain(k: Setup, s: Conf, c: Control)
    requires AtProceed(k, s, c).Some? && !(c.Weigh? && c.calls == [])
    ensures var s' := AtProceed(k, s, c).value;
      s'.db == s.db && (s'.phase.Do? ==> PlainWrites(s'.phase.ws))
  {
    hide AtExec, DoneWrites;
    match c {
      case Exec(i, calls) => ExecIsPlain(k, s.db, i, calls);
      case Tool(i, call, key, seqNo, rest) =>
        if key in s.db.results {
          DoneIsPlain(call, key, seqNo, true, s.db.results[key], false);
        }
      case Saving(i, call, key, seqNo, result, batch, results, rest) =>
        var cached := key in s.db.results;
        DoneIsPlain(call, key, seqNo, cached, if cached then s.db.results[key] else result, true);
      case _ =>
    }
  }

  lemma StretchIsPlain(k: Setup, g: Guards, s: Conf, l: Label)
    requires Step(k, g, s, l).Some? && !l.Commit? && !l.Decided? && !l.CallRecover?
    requires !(l.Proceed? && AtFinalAnswer(s.phase))
    ensures var s' := Step(k, g, s, l).value;
      s'.db == s.db && (s'.phase.Do? ==> PlainWrites(s'.phase.ws))
  {
    hide AtProceed, AtAnswer, DoneWrites;
    match l {
      case Answer(reply) => AnswerIsPlain(g, s.phase.next.iteration, s.phase.next.attempt, s.phase.next.seqNo, reply);
      case Proceed => ProceedIsPlain(k, s, s.phase.next);
      case Returns(result) => DoneIsPlain(s.phase.call, s.phase.key, s.phase.seqNo, false, result, false);
      case _ =>
    }
  }

  lemma StepKeepsSid(k: Setup, g: Guards, s: Conf, l: Label)
    requires Step(k, g, s, l).Some?
    ensures Step(k, g, s, l).value.db.sid == s.db.sid
  {
    hide ApplyAll, Denial, GateOf, EligibleRun, DoneWrites, AtExec, AtAnswer, RecoverWrites;
  }

  // --------------------------------------------------- frames: each step keeps them

  /** The invariant of the kernel machine does not look at ledger, messages or status. */
  lemma LogKeepsInv(k: Setup, s: Conf, ev: Event)
    requires Inv(k, s) && s.phase.Running?
    ensures Inv(k, s.(db := Apply(s.db, Log(ev))))
  {
    hide Classify, NonIdempotent, Gated;
  }

  lemma CommittedEvent(cfg: Config, revoked: set<string>, f: Frame, ev: Event, phase: Phase)
    requires LedgerOk(cfg, revoked, f) && !f.job.Writing? && KernelEvent(ev)
    requires ev.FinalizeLogged? ==> AllCompleted(cfg.policyOf(f.agent).required, f.conf.db.ledger)
    requires DueOk(cfg.policyOf(f.agent).required, f.conf.db.ledger, phase)
    ensures LedgerOk(cfg, revoked, f.(conf := f.conf.(db := Apply(f.conf.db, Log(ev)), phase := phase)))
  {
    hide Authorized, AllCompleted;
    var ledger := f.conf.db.ledger;
    var f' := f.(conf := f.conf.(db := Apply(f.conf.db, Log(ev)), phase := phase));
    assert Logged(f) == ledger && Logged(f') == ledger + [ev];
    FinalizedLateSnoc(cfg.policyOf(f.agent).required, ledger, ev);
    MoreCompleted(cfg.policyOf(f.agent).required, ledger, ev);
    forall child
      ensures Delegations(Logged(f'), child) == Delegations(Logged(f), child)
    {
      DelegationsSnoc(ledger, ev, child);
    }
    hide Delegations;
  }

  lemma MoreCompleted(required: seq<string>, ledger: seq<Event>, ev: Event)
    ensures AllCompleted(required, ledger) ==> AllCompleted(required, ledger + [ev])
  {
  }

  lemma MovedPhase(cfg: Config, revoked: set<string>, f: Frame, conf: Conf, job: Job)
    requires LedgerOk(cfg, revoked, f) && conf.db.ledger == f.conf.db.ledger && f.job.NoJob?
    requires (job.NoJob? || job.Starting?)
    requires DueOk(cfg.policyOf(f.agent).required, conf.db.ledger, conf.phase)
    ensures LedgerOk(cfg, revoked, f.(conf := conf, job := job))
  {
    hide Authorized, Delegations, AllCompleted, DueOk, FinalizedLate;
    var f' := f.(conf := conf, job := job);
    assert Logged(f') == Logged(f);
  }

  lemma KernelStepKeepsFrame(cfg: Config, revoked: set<string>, f: Frame, l: Label)
    requires FrameOk(cfg, revoked, f) && Allowed(cfg, f, l)
    requires Step(cfg.setupOf(f.agent), cfg.guards, f.conf, l).Some?
    ensures var c := Step(cfg.setupOf(f.agent), cfg.guards, f.conf, l).value;
      FrameOk(cfg, revoked, f.(conf := c, job := JobOf(c.phase)))
  {
    hide Inv, LedgerOk, Step, Missing;
    var k := cfg.setupOf(f.agent);
    var c := Step(k, cfg.guards, f.conf, l).value;
    StepKeepsInv(k, cfg.guards, f.conf, l);
    StepKeepsPermits(k, cfg.guards, f.conf, l);
    if l.Commit? {
      CommitKeepsLedger(cfg, revoked, f);
    } else {
      MoveKeepsLedger(cfg, revoked, f, l);
    }
  }

  lemma CommitKeepsLedger(cfg: Config, revoked: set<string>, f: Frame)
    requires LedgerOk(cfg, revoked, f) && f.job.NoJob?
    requires Step(cfg.setupOf(f.agent), cfg.guards, f.conf, Commit).Some?
    ensures var c := Step(cfg.setupOf(f.agent), cfg.guards, f.conf, Commit).value;
      LedgerOk(cfg, revoked, f.(conf := c, job := JobOf(c.phase))) && JobOf(c.phase) == NoJob
  {
    hide FinalizedLate, CountsOk, WithinLimit, AllCompleted, ApplyAll;
    var p := f.conf.phase;
    var w, phase := p.ws[0], Do(p.ws[1..], p.next);
    if w.Log? {
      CommittedEvent(cfg, revoked, f, w.event, phase);
      assert f.(conf := f.conf.(db := Apply(f.conf.db, w), phase := phase))
          == f.(conf := f.conf.(db := Apply(f.conf.db, w), phase := phase), job := NoJob);
    } else {
      MovedPhase(cfg, revoked, f, f.conf.(db := Apply(f.conf.db, w), phase := phase), NoJob);
    }
  }

  lemma MoveKeepsLedger(cfg: Config, revoked: set<string>, f: Frame, l: Label)
    requires LedgerOk(cfg, revoked, f) && Allowed(cfg, f, l) && !l.Commit?
    requires Step(cfg.setupOf(f.agent), cfg.guards, f.conf, l).Some?
    ensures var c := Step(cfg.setupOf(f.agent), cfg.guards, f.conf, l).value;
      LedgerOk(cfg, revoked, f.(conf := c, job := JobOf(c.phase)))
  {
    hide FinalizedLate, CountsOk, WithinLimit, ApplyAll, Step, AllCompleted;
    var k := cfg.setupOf(f.agent);
    var c := Step(k, cfg.guards, f.conf, l).value;
    if l.Proceed? && AtFinalAnswer(f.conf.phase) {
      FinalAnswer(cfg, f);
    } else {
      StretchIsPlain(k, cfg.guards, f.conf, l);
    }
    MovedPhase(cfg, revoked, f, c, JobOf(c.phase));
  }

  /** Finalizing is allowed only when every required child has completed, and is then on the ledger. */
  lemma FinalAnswer(cfg: Config, f: Frame)
    requires f.job.NoJob? && AtFinalAnswer(f.conf.phase) && !Missing(cfg.policyOf(f.agent), f.completed)
    requires forall c :: c in f.completed ==> Completed(c) in Logged(f)
    requires Step(cfg.setupOf(f.agent), cfg.guards, f.conf, Proceed).Some?
    ensures var c := Step(cfg.setupOf(f.agent), cfg.guards, f.conf, Proceed).value;
      c.db == f.conf.db && DueOk(cfg.policyOf(f.agent).required, c.db.ledger, c.phase)
  {
    hide ApplyAll;
    var required := cfg.policyOf(f.agent).required;
    assert Logged(f) == f.conf.db.ledger;
    assert forall i :: 0 <= i < |required| ==> required[i] in f.completed;
  }

  lemma DecisionKeepsFrame(cfg: Config, revoked: set<string>, f: Frame, aid: ApprovalId, d: Decision, logged: bool)
    requires FrameOk(cfg, revoked, f)
    ensures Step(cfg.setupOf(f.agent), cfg.guards, f.conf, Decided(aid, d, logged)).Some?
    ensures var c := Step(cfg.setupOf(f.agent), cfg.guards, f.conf, Decided(aid, d, logged)).value;
      FrameOk(cfg, revoked, f.(conf := c)) && c.phase == f.conf.phase && c.db.sid == f.conf.db.sid
  {
    hide Inv, Authorized;
    StepKeepsInv(cfg.setupOf(f.agent), cfg.guards, f.conf, Decided(aid, d, logged));
    StepKeepsPermits(cfg.setupOf(f.agent), cfg.guards, f.conf, Decided(aid, d, logged));
    var c := Step(cfg.setupOf(f.agent), cfg.guards, f.conf, Decided(aid, d, logged)).value;
    if logged {
      DecisionEvent(cfg, revoked, f, f.(conf := c), ApprovalLogged(aid, d));
    } else {
      SameLedger(cfg, revoked, f, f.(conf := c));
    }
  }

  lemma SameLedger(cfg: Config, revoked: set<string>, f: Frame, f': Frame)
    requires LedgerOk(cfg, revoked, f) && f' == f.(conf := f'.conf)
    requires f'.conf.db.ledger == f.conf.db.ledger && f'.conf.phase == f.conf.phase
    ensures LedgerOk(cfg, revoked, f')
  {
    hide Authorized, Delegations, AllCompleted, DueOk, FinalizedLate;
    assert Logged(f') == Logged(f);
  }

  lemma DecisionEvent(cfg: Config, revoked: set<string>, f: Frame, f': Frame, ev: Event)
    requires LedgerOk(cfg, revoked, f) && f' == f.(conf := f'.conf) && ev.ApprovalLogged?
    requires f'.conf.db.ledger == f.conf.db.ledger + [ev] && f'.conf.phase == f.conf.phase
    ensures LedgerOk(cfg, revoked, f')
  {
    hide Authorized, AllCompleted;
    var ledger, due := f.conf.db.ledger, if f.job.Writing? then f.job.events else [];
    FinalizedLateSnoc(cfg.policyOf(f.agent).required, ledger, ev);
    MoreCompleted(cfg.policyOf(f.agent).required, ledger, ev);
    forall child
      ensures Delegations(Logged(f'), child) == Delegations(Logged(f), child)
    {
      DelegationsInsert(ledger, ev, due, child);
    }
    assert forall e :: e in Logged(f) ==> e in Logged(f');
    hide Delegations;
  }

  lemma {:induction false} DelegationsInsert(a: seq<Event>, ev: Event, b: seq<Event>, child: string)
    requires !ev.Delegated?
    ensures Delegations(a + [ev] + b, child) == Delegations(a + b, child)
    decreases |b|
  {
    if b == [] {
      assert a + [ev] + b == a + [ev] && a + b == a;
      DelegationsSnoc(a, ev, child);
    } else {
      var n := |b| - 1;
      assert a + [ev] + b == (a + [ev] + b[..n]) + [b[n]] && a + b == (a + b[..n]) + [b[n]];
      DelegationsInsert(a, ev, b[..n], child);
      DelegationsSnoc(a + [ev] + b[..n], b[n], child);
      DelegationsSnoc(a + b[..n], b[n], child);
    }
  }

  // ------------------------------------------------------ the delegate function's steps

  lemma DelegationsTwo(ledger: seq<Event>, a: Event, b: Event, child: string)
    requires !b.Delegated?
    ensures Delegations(ledger + [a, b], child)
         == Delegations(ledger, child) + (if a.Delegated? && a.child == child then 1 else 0)
  {
    assert ledger + [a, b] == (ledger + [a]) + [b];
    DelegationsSnoc(ledger, a, child);
    DelegationsSnoc(ledger + [a], b, child);
  }

  /** A job whose due events record no delegation leaves the counts as they were. */
  lemma QuietJob(cfg: Config, revoked: set<string>, f: Frame, job: Job)
    requires FrameOk(cfg, revoked, f) && f.job.Starting? && job.Writing? && job.next.Finish?
    requires |job.events| <= 1 && forall i :: 0 <= i < |job.events| ==> PlainEvent(job.events[i])
    ensures FrameOk(cfg, revoked, f.(job := job))
  {
    hide Inv, Authorized, AllCompleted, FinalizedLate, DueOk;
    var ledger, f' := f.conf.db.ledger, f.(job := job);
    assert Logged(f) == ledger;
    forall child
      ensures Delegations(Logged(f'), child) == Delegations(ledger, child)
    {
      if job.events == [] {
        assert Logged(f') == ledger;
      } else {
        assert Logged(f') == ledger + [job.events[0]];
        DelegationsSnoc(ledger, job.events[0], child);
      }
    }
    assert forall e :: e in Logged(f) ==> e in Logged(f');
    hide Delegations;
  }

  /** A delegation is recorded only below the limit, and only when none of that child is ahead. */
  lemma LaunchingJob(cfg: Config, revoked: set<string>, f: Frame, child: string, task: string)
    requires FrameOk(cfg, revoked, f) && f.job.Starting?
    requires child in ChildrenOf(cfg.team.edges, f.agent) && f.depth + 1 <= cfg.maxDepth
    requires Authorized(cfg, revoked, child)
    requires var m := cfg.policyOf(f.agent).maxPerChild; m.Some? ==> CountOf(f, child) < m.value
    ensures FrameOk(cfg, revoked, f.(job := Writing([Delegated(f.agent, child, f.depth + 1),
                                                     MailLogged(f.agent, child, "task", task)], Launch(child, task))))
  {
    hide Inv, Authorized, AllCompleted, FinalizedLate, DueOk, ChildrenOf;
    var ledger := f.conf.db.ledger;
    var a, b := Delegated(f.agent, child, f.depth + 1), MailLogged(f.agent, child, "task", task);
    var f' := f.(job := Writing([a, b], Launch(child, task)));
    assert Logged(f) == ledger && Logged(f') == ledger + [a, b];
    forall c
      ensures Delegations(Logged(f'), c) == Delegations(ledger, c) + (if c == child then 1 else 0)
    {
      DelegationsTwo(ledger, a, b, c);
    }
    assert !Ahead(cfg, revoked, f, child);
    hide Delegations;
  }

  lemma GoKeepsFrame(cfg: Config, ts: TeamState, f: Frame, child: string, task: string)
    requires FrameOk(cfg, ts.revoked, f) && f.job.Starting?
    ensures var job := Decide(cfg, ts, f, child, task);
      FrameOk(cfg, ts.revoked, f.(job := job)) && job.Writing?
  {
    hide FrameOk, Authorized, Unusable;
    var job := Decide(cfg, ts, f, child, task);
    if job.next.Launch? {
      LaunchingJob(cfg, ts.revoked, f, child, task);
    } else {
      QuietJob(cfg, ts.revoked, f, job);
    }
  }

  lemma WriteKeepsFrame(cfg: Config, revoked: set<string>, f: Frame)
    requires FrameOk(cfg, revoked, f) && f.job.Writing? && f.job.events != []
    ensures FrameOk(cfg, revoked, f.(conf := f.conf.(db := Apply(f.conf.db, Log(f.job.events[0]))),
                                     job := f.job.(events := f.job.events[1..])))
  {
    hide Inv, Authorized, AllCompleted, Delegations;
    var ev, ledger := f.job.events[0], f.conf.db.ledger;
    var f' := f.(conf := f.conf.(db := Apply(f.conf.db, Log(ev))), job := f.job.(events := f.job.events[1..]));
    LogKeepsInv(cfg.setupOf(f.agent), f.conf, ev);
    assert Logged(f') == Logged(f);
    FinalizedLateSnoc(cfg.policyOf(f.agent).required, ledger, ev);
  }

  /** The job moves on without an event: launch, failed launch, or a result for the kernel. */
  lemma SwitchKeepsFrame(cfg: Config, revoked: set<string>, f: Frame, job: Job)
    requires FrameOk(cfg, revoked, f) && f.job.Writing? && f.job.events == []
    requires || (job.Waiting? && f.job.next.Launch? && job.child == f.job.next.child)
             || (job.Writing? && job.events == [] && job.next.Finish? && f.job.next.Launch?
                 && !Authorized(cfg, revoked, f.job.next.child))
    ensures FrameOk(cfg, revoked, f.(job := job))
  {
    hide Inv, Authorized, AllCompleted, Delegations, FinalizedLate, DueOk;
    var f' := f.(job := job);
    assert Logged(f') == Logged(f);
    assert forall child :: Ahead(cfg, revoked, f, child) ==> Ahead(cfg, revoked, f', child);
  }

  lemma FinishKeepsFrame(cfg: Config, revoked: set<string>, f: Frame)
    requires FrameOk(cfg, revoked, f) && f.job.Writing? && f.job.events == [] && f.job.next.Finish?
    ensures var c := Step(cfg.setupOf(f.agent), cfg.guards, f.conf, Returns(f.job.next.text));
      && c.Some? && FrameOk(cfg, revoked, f.(conf := c.value, job := NoJob))
      && c.value.db == f.conf.db
  {
    hide Inv, Authorized, AllCompleted, Delegations, FinalizedLate, DoneWrites;
    var text := f.job.next.text;
    StepKeepsInv(cfg.setupOf(f.agent), cfg.guards, f.conf, Returns(text));
    StepKeepsPermits(cfg.setupOf(f.agent), cfg.guards, f.conf, Returns(text));
    var c := Step(cfg.setupOf(f.agent), cfg.guards, f.conf, Returns(text)).value;
    DoneIsPlain(f.conf.phase.call, f.conf.phase.key, f.conf.phase.seqNo, false, text, false);
    assert Logged(f.(conf := c, job := NoJob)) == Logged(f);
  }

  /** Either way two events follow, the second being the result's delivery. */
  lemma AbsorbShape(cfg: Config, f: Frame, ledger: seq<Event>, text: string, reason: string)
    requires f.job.Waiting?
    ensures var g := Absorb(cfg, f, ledger, text, reason);
      && g == f.(count := f.count[f.job.child := CountOf(f, f.job.child) + 1],
                 completed := g.completed, denied := g.denied, job := g.job)
      && g.job.Writing? && g.job.next.Finish? && |g.job.events| == 2
      && PlainEvent(g.job.events[0]) && PlainEvent(g.job.events[1])
      && (|| g.completed == f.completed
          || (g.completed == f.completed + {f.job.child} && g.job.events[0] == Completed(f.job.child)))
  {
    hide ResultText, AllDenied;
  }

  lemma AbsorbKeepsFrame(cfg: Config, revoked: set<string>, f: Frame, ledger: seq<Event>, text: string, reason: string)
    requires FrameOk(cfg, revoked, f) && f.job.Waiting?
    ensures var g := Absorb(cfg, f, ledger, text, reason);
      FrameOk(cfg, revoked, g) && g.agent == f.agent && g.depth == f.depth && g.conf == f.conf && g.job.Writing?
  {
    hide Inv, Authorized, AllCompleted, FinalizedLate, DueOk, ChildrenOf, Absorb, Completed;
    AbsorbShape(cfg, f, ledger, text, reason);
    var g := Absorb(cfg, f, ledger, text, reason);
    var own := f.conf.db.ledger;
    var a, b := g.job.events[0], g.job.events[1];
    assert g.job.events == [a, b] && Logged(f) == own && Logged(g) == own + [a, b];
    forall c
      ensures Delegations(Logged(g), c) == Delegations(own, c)
    {
      DelegationsTwo(own, a, b, c);
    }
    hide Delegations;
    forall c
      ensures Delegations(Logged(g), c) <= CountOf(g, c) + (if Ahead(cfg, revoked, g, c) then 1 else 0)
    {
      assert c != f.job.child ==> CountOf(g, c) == CountOf(f, c);
      assert c != f.job.child && Ahead(cfg, revoked, f, c) ==> Ahead(cfg, revoked, g, c);
    }
    assert a in Logged(g) && forall e :: e in Logged(f) ==> e in Logged(g);
  }

  lemma RevokingKeepsAuthority(cfg: Config, revoked: set<string>, name: string, child: string)
    requires Authorized(cfg, revoked + {name}, child)
    ensures Authorized(cfg, revoked, child)
  {
    hide IsPath;
    var t, t' := cfg.team.(revoked := revoked), cfg.team.(revoked := revoked + {name});
    var path :| GrantedAlong(cfg.host, t', path, child);
    RevokedIsNotRead(cfg.host, t', t, path);
    assert GrantedAlong(cfg.host, t, path, child);
  }

  lemma RevokeKeepsFrame(cfg: Config, revoked: set<string>, f: Frame, name: string)
    requires FrameOk(cfg, revoked, f)
    ensures FrameOk(cfg, revoked + {name}, f)
  {
    hide Inv, Authorized, AllCompleted, FinalizedLate, DueOk, Delegations;
    forall child | Ahead(cfg, revoked, f, child)
      ensures Ahead(cfg, revoked + {name}, f, child)
    {
      if Authorized(cfg, revoked + {name}, child) {
        RevokingKeepsAuthority(cfg, revoked, name, child);
      }
    }
  }

  lemma FreshConfIsOk(k: Setup, sid: string, ws: seq<Write>)
    requires forall i :: 0 <= i < |ws| ==> ws[i].Log? || ws[i].Post? || (ws[i].Journal? && ws[i].rec.Assemble?)
    ensures Inv(k, Conf(FreshSession(sid), Do(ws, Top(1)), []))
  {
    hide ApplyAll, Classify, NonIdempotent;
  }

  lemma NewFrameIsOk(cfg: Config, revoked: set<string>, sid: string, agent: string, depth: nat, task: string)
    requires depth <= cfg.maxDepth
    ensures var f := NewFrame(cfg, sid, agent, depth, task);
      FrameOk(cfg, revoked, f) && f.conf.db.sid == sid && f.job.NoJob? && f.agent == agent && f.depth == depth
  {
    hide Authorized, ApplyAll, Inv;
    var f := NewFrame(cfg, sid, agent, depth, task);
    FreshConfIsOk(cfg.setupOf(agent), sid, f.conf.phase.ws);
    assert Logged(f) == [];
  }

  // ------------------------------------------------------------------ whole states

  /** Rows only look at which sessions the frames are. */
  lemma SameRows(ts: TeamState, ts': TeamState)
    requires RowsOk(ts) && ts'.members == ts.members && ts'.returned == ts.returned && |ts'.stack| == |ts.stack|
    requires forall i :: 0 <= i < |ts.stack| ==>
      var f, g := ts.stack[i], ts'.stack[i]; f.agent == g.agent && f.depth == g.depth && f.conf.db.sid == g.conf.db.sid
    ensures RowsOk(ts')
  {
    forall j | 0 <= j < |ts.members|
      ensures Live(ts'.stack, ts.members[j].sid) || ts.members[j].sid in ts.returned
    {
      if Live(ts.stack, ts.members[j].sid) {
        var i :| 0 <= i < |ts.stack| && ts.stack[i].conf.db.sid == ts.members[j].sid;
        assert ts'.stack[i].conf.db.sid == ts.members[j].sid;
      }
    }
    forall i | 0 <= i < |ts'.stack|
      ensures HasRow(ts.members, ts'.stack[i])
    {
      assert HasRow(ts.members, ts.stack[i]);
      var j :| 0 <= j < |ts.members| && RowOf(ts.members[j], ts.stack[i]);
      assert RowOf(ts.members[j], ts'.stack[i]);
    }
  }

  lemma ReplaceTop(cfg: Config, ts: TeamState, f: Frame)
    requires TeamInv(cfg, ts) && FrameOk(cfg, ts.revoked, f) && !f.job.Waiting?
    requires var g := Innermost(ts); f.agent == g.agent && f.depth == g.depth && f.conf.db.sid == g.conf.db.sid
    ensures TeamInv(cfg, WithTop(ts, f))
  {
    hide FrameOk, ReturnedOk, MembersOk, RowsOk;
    var ts', n := WithTop(ts, f), |ts.stack| - 1;
    assert forall i :: 0 <= i < n ==> ts'.stack[i] == ts.stack[i];
    assert ts'.stack[n] == f;
    SameRows(ts, ts');
  }

  lemma DecideAtKeepsInv(cfg: Config, ts: TeamState, i: nat, aid: ApprovalId, d: Decision, logged: bool)
    requires TeamInv(cfg, ts) && i < |ts.stack|
    ensures var c := Step(cfg.setupOf(ts.stack[i].agent), cfg.guards, ts.stack[i].conf, Decided(aid, d, logged)).value;
      TeamInv(cfg, ts.(stack := ts.stack[i := ts.stack[i].(conf := c)]))
  {
    hide FrameOk, ReturnedOk, MembersOk, RowsOk, Inv;
    var f := ts.stack[i];
    DecisionKeepsFrame(cfg, ts.revoked, f, aid, d, logged);
    var c := Step(cfg.setupOf(f.agent), cfg.guards, f.conf, Decided(aid, d, logged)).value;
    hide Step;
    var ts' := ts.(stack := ts.stack[i := f.(conf := c)]);
    SameRows(ts, ts');
  }

  lemma LaunchLinks(stack: seq<Frame>, g: Frame, h: Frame)
    requires stack != [] && Linked(stack) && g.job.Waiting? && g.job.child == h.agent && h.depth == g.depth + 1
    requires var f := stack[|stack| - 1]; g.agent == f.agent && g.depth == f.depth
    requires !h.job.Waiting?
    ensures Linked(stack[..|stack| - 1] + [g] + [h])
  {
    var n, s := |stack| - 1, stack[..|stack| - 1] + [g] + [h];
    assert s[n] == g && s[n + 1] == h && forall i :: 0 <= i < n ==> s[i] == stack[i];
  }

  /** A launched child is one level down along a topology edge, with a row of its own. */
  lemma LaunchKeepsInv(cfg: Config, ts: TeamState, sid: string)
    requires TeamInv(cfg, ts) && !SidUsed(ts, sid)
    requires var f := Innermost(ts); f.job.Writing? && f.job.events == [] && f.job.next.Launch?
    ensures var f := Innermost(ts);
      var child, task := f.job.next.child, f.job.next.task;
      var parked := WithTop(ts, f.(job := Waiting(child, task)));
      TeamInv(cfg, parked.(stack := parked.stack + [NewFrame(cfg, sid, child, f.depth + 1, task)],
                           members := ts.members + [Member(sid, child, Some(f.conf.db.sid), f.depth + 1)]))
  {
    hide FrameOk, ReturnedOk, RowsOk, MembersOk, NewFrame, Linked, SidUsed, ChildrenOf, Authorized;
    var f, n := Innermost(ts), |ts.stack| - 1;
    var child, task := f.job.next.child, f.job.next.task;
    var g, h := f.(job := Waiting(child, task)), NewFrame(cfg, sid, child, f.depth + 1, task);
    var row := Member(sid, child, Some(f.conf.db.sid), f.depth + 1);
    var ts' := ts.(stack := ts.stack[..n] + [g] + [h], members := ts.members + [row]);
    SwitchKeepsFrame(cfg, ts.revoked, f, g.job);
    LaunchIsOnAnEdge(cfg, ts.revoked, f);
    NewFrameIsOk(cfg, ts.revoked, sid, child, f.depth + 1, task);
    assert forall i :: 0 <= i < n ==> ts'.stack[i] == ts.stack[i];
    assert ts'.stack[n] == g && ts'.stack[n + 1] == h;
    LaunchLinks(ts.stack, g, h);
    LaunchRows(ts, ts');
    TopHasRow(ts, sid);
    LaunchMembers(cfg, ts.members, f, row);
  }

  lemma LaunchIsOnAnEdge(cfg: Config, revoked: set<string>, f: Frame)
    requires FrameOk(cfg, revoked, f) && f.job.Writing? && f.job.next.Launch?
    ensures f.job.next.child in ChildrenOf(cfg.team.edges, f.agent) && f.depth + 1 <= cfg.maxDepth
  {
    hide Inv, LedgerOk;
  }

  lemma LaunchRows(ts: TeamState, ts': TeamState)
    requires RowsOk(ts) && |ts'.stack| == |ts.stack| + 1 && |ts'.members| == |ts.members| + 1
    requires ts'.returned == ts.returned
    requires ts'.members[..|ts.members|] == ts.members
    requires forall i :: 0 <= i < |ts.stack| ==>
      var f, g := ts.stack[i], ts'.stack[i]; f.agent == g.agent && f.depth == g.depth && f.conf.db.sid == g.conf.db.sid
    requires var h, row := ts'.stack[|ts.stack|], ts'.members[|ts.members|];
      h.conf.db.sid == row.sid && h.agent == row.agent && h.depth == row.depth
    ensures RowsOk(ts')
  {
    assert forall j :: 0 <= j < |ts.members| ==> ts'.members[j] == ts.members[j];
    forall j | 0 <= j < |ts'.members|
      ensures Live(ts'.stack, ts'.members[j].sid) || ts'.members[j].sid in ts'.returned
    {
      if j < |ts.members| {
        if Live(ts.stack, ts.members[j].sid) {
          var i :| 0 <= i < |ts.stack| && ts.stack[i].conf.db.sid == ts.members[j].sid;
          assert ts'.stack[i].conf.db.sid == ts'.members[j].sid;
        }
      } else {
        assert ts'.stack[|ts.stack|].conf.db.sid == ts'.members[j].sid;
      }
    }
    forall i | 0 <= i < |ts'.stack|
      ensures HasRow(ts'.members, ts'.stack[i])
    {
      if i < |ts.stack| {
        assert HasRow(ts.members, ts.stack[i]);
        var j :| 0 <= j < |ts.members| && RowOf(ts.members[j], ts.stack[i]);
        assert RowOf(ts'.members[j], ts'.stack[i]);
      } else {
        assert RowOf(ts'.members[|ts.members|], ts'.stack[i]);
      }
    }
  }

  /** A row's parent stays where it is. */
  lemma ParentRowStays(cfg: Config, members: seq<Member>, row: Member, i: nat)
    requires i < |members| && members[i].parent.Some? && HasParentRow(cfg, members, i)
    ensures HasParentRow(cfg, members + [row], i)
  {
    hide ParentRow;
    var rows := members + [row];
    var j :| 0 <= j < i && ParentRow(cfg, members[j], members[i]);
    assert ParentRow(cfg, rows[j], rows[i]);
  }

  lemma NewRowHasParent(cfg: Config, members: seq<Member>, f: Frame, row: Member)
    requires HasRow(members, f) && row.parent == Some(f.conf.db.sid) && row.depth == f.depth + 1
    requires row.agent in ChildrenOf(cfg.team.edges, f.agent)
    ensures HasParentRow(cfg, members + [row], |members|)
  {
    hide ChildrenOf;
    var rows, n := members + [row], |members|;
    var j :| 0 <= j < n && RowOf(members[j], f);
    assert ParentRow(cfg, rows[j], rows[n]);
  }

  lemma LaunchMembers(cfg: Config, members: seq<Member>, f: Frame, row: Member)
    requires MembersOk(cfg, members) && HasRow(members, f)
    requires forall i :: 0 <= i < |members| ==> members[i].sid != row.sid
    requires row.parent == Some(f.conf.db.sid) && row.depth == f.depth + 1 && row.depth <= cfg.maxDepth
    requires row.agent in ChildrenOf(cfg.team.edges, f.agent)
    ensures MembersOk(cfg, members + [row])
  {
    hide ChildrenOf, HasParentRow, HasRow;
    var rows, n := members + [row], |members|;
    NewRowHasParent(cfg, members, f, row);
    forall i | 0 <= i < n && rows[i].parent.Some?
      ensures HasParentRow(cfg, rows, i)
    {
      ParentRowStays(cfg, members, row, i);
    }
  }

  lemma TopHasRow(ts: TeamState, sid: string)
    requires ts.stack != [] && RowsOk(ts) && !SidUsed(ts, sid)
    ensures HasRow(ts.members, Innermost(ts)) && forall i :: 0 <= i < |ts.members| ==> ts.members[i].sid != sid
  {
  }

  /** A child that has left becomes a clean, returned session; its parent goes on. */
  lemma ReturnKeepsInv(cfg: Config, ts: TeamState)
    requires TeamInv(cfg, ts) && |ts.stack| >= 2
    requires var p := Innermost(ts).conf.phase; p.Do? && p.ws == [] && p.next.Leave?
    requires ts.stack[|ts.stack| - 2].job.Waiting?
    ensures var n, f := |ts.stack| - 1, Innermost(ts);
      var parent := Absorb(cfg, ts.stack[n - 1], f.conf.db.ledger, f.conf.phase.next.text, f.conf.phase.next.reason);
      TeamInv(cfg, ts.(stack := ts.stack[..n - 1] + [parent],
                       returned := ts.returned[f.conf.db.sid := (f.agent, f.conf)]))
  {
    hide FrameOk, ReturnedOk, RowsOk, MembersOk, Absorb;
    var n, f := |ts.stack| - 1, Innermost(ts);
    var parent := Absorb(cfg, ts.stack[n - 1], f.conf.db.ledger, f.conf.phase.next.text, f.conf.phase.next.reason);
    AbsorbKeepsFrame(cfg, ts.revoked, ts.stack[n - 1], f.conf.db.ledger, f.conf.phase.next.text,
                     f.conf.phase.next.reason);
    LeavingIsOk(cfg, ts.revoked, f);
    var ts' := ts.(stack := ts.stack[..n - 1] + [parent], returned := ts.returned[f.conf.db.sid := (f.agent, f.conf)]);
    assert forall i :: 0 <= i < n - 1 ==> ts'.stack[i] == ts.stack[i];
    assert ts'.stack[n - 1] == parent;
    ReturnRows(ts, ts', f);
  }

  lemma LeavingIsOk(cfg: Config, revoked: set<string>, f: Frame)
    requires FrameOk(cfg, revoked, f)
    requires f.conf.phase.Do? && f.conf.phase.ws == [] && f.conf.phase.next.Leave?
    ensures ReturnedOk(cfg, f.conf.db.sid, f.agent, f.conf)
  {
    hide FinalizedLate, Delegations, Classify, Sound, AtMostOnce, GatesKept, CountsOk, DueOk;
    ApplyNone(f.conf.db);
    assert Logged(f) == f.conf.db.ledger;
  }

  lemma ReturnRows(ts: TeamState, ts': TeamState, f: Frame)
    requires RowsOk(ts) && |ts.stack| >= 2 && f == Innermost(ts) && |ts'.stack| == |ts.stack| - 1
    requires ts'.members == ts.members
    requires forall i :: 0 <= i < |ts'.stack| ==>
      var p, q := ts.stack[i], ts'.stack[i]; p.agent == q.agent && p.depth == q.depth && p.conf.db.sid == q.conf.db.sid
    requires forall sid :: sid in ts'.returned <==> sid in ts.returned || sid == f.conf.db.sid
    ensures RowsOk(ts')
  {
    var n := |ts'.stack|;
    forall j | 0 <= j < |ts.members|
      ensures Live(ts'.stack, ts.members[j].sid) || ts.members[j].sid in ts'.returned
    {
      if Live(ts.stack, ts.members[j].sid) {
        var i :| 0 <= i < |ts.stack| && ts.stack[i].conf.db.sid == ts.members[j].sid;
        if i < n {
          assert ts'.stack[i].conf.db.sid == ts.members[j].sid;
        }
      }
    }
    forall i | 0 <= i < n
      ensures HasRow(ts.members, ts'.stack[i])
    {
      assert HasRow(ts.members, ts.stack[i]);
      var j :| 0 <= j < |ts.members| && RowOf(ts.members[j], ts.stack[i]);
      assert RowOf(ts.members[j], ts'.stack[i]);
    }
  }

  lemma RevokeKeepsInv(cfg: Config, ts: TeamState, name: string)
    requires TeamInv(cfg, ts)
    ensures TeamInv(cfg, ts.(revoked := ts.revoked + {name}))
  {
    hide FrameOk, ReturnedOk, MembersOk, Linked;
    var ts' := ts.(revoked := ts.revoked + {name});
    forall i | 0 <= i < |ts.stack|
      ensures FrameOk(cfg, ts'.revoked, ts'.stack[i])
    {
      RevokeKeepsFrame(cfg, ts.revoked, ts.stack[i], name);
    }
    SameRows(ts, ts');
  }

  lemma CancelKeepsInv(cfg: Config, ts: TeamState)
    requires TeamInv(cfg, ts)
    ensures TeamInv(cfg, ts.(cancelled := true))
  {
    hide FrameOk, ReturnedOk, MembersOk, Linked;
    SameRows(ts, ts.(cancelled := true));
  }

  lemma TeamStepKeepsInv(cfg: Config, ts: TeamState, l: TeamLabel)
    requires TeamInv(cfg, ts) && TeamStep(cfg, ts, l).Some?
    ensures TeamInv(cfg, TeamStep(cfg, ts, l).value)
  {
    hide FrameOk, ReturnedOk, MembersOk, RowsOk, Linked, Step, Allowed, Absorb, Decide, NewFrame, Authorized;
    var f := Innermost(ts);
    var k := cfg.setupOf(f.agent);
    TopIsNotWaiting(cfg, ts);
    match l {
      case KernelStep(kl) =>
        KernelStepKeepsFrame(cfg, ts.revoked, f, kl);
        StepKeepsSid(k, cfg.guards, f.conf, kl);
        var c := Step(k, cfg.guards, f.conf, kl).value;
        ReplaceTop(cfg, ts, f.(conf := c, job := JobOf(c.phase)));
      case DecideAt(i, aid, d, logged) => DecideAtKeepsInv(cfg, ts, i, aid, d, logged);
      case JobGo =>
        var child, task := cfg.childOf(f.conf.phase.call.args), cfg.taskOf(f.conf.phase.call.args);
        GoKeepsFrame(cfg, ts, f, child, task);
        ReplaceTop(cfg, ts, f.(job := Decide(cfg, ts, f, child, task)));
      case JobWrite =>
        WriteKeepsFrame(cfg, ts.revoked, f);
        ReplaceTop(cfg, ts, f.(conf := f.conf.(db := Apply(f.conf.db, Log(f.job.events[0]))),
                               job := f.job.(events := f.job.events[1..])));
      case JobLaunch(sid) =>
        if Authorized(cfg, ts.revoked, f.job.next.child) {
          LaunchKeepsInv(cfg, ts, sid);
        } else {
          var job := Writing([], Finish(REFUSED_AT_START));
          SwitchKeepsFrame(cfg, ts.revoked, f, job);
          ReplaceTop(cfg, ts, f.(job := job));
        }
      case JobReturn => ReturnKeepsInv(cfg, ts);
      case JobFinish =>
        FinishKeepsFrame(cfg, ts.revoked, f);
        var c := Step(k, cfg.guards, f.conf, Returns(f.job.next.text)).value;
        ReplaceTop(cfg, ts, f.(conf := c, job := NoJob));
      case RevokeAgent(name) => RevokeKeepsInv(cfg, ts, name);
      case CancelTeam => CancelKeepsInv(cfg, ts);
    }
  }

  lemma TopIsNotWaiting(cfg: Config, ts: TeamState)
    requires TeamInv(cfg, ts)
    ensures FrameOk(cfg, ts.revoked, Innermost(ts)) && !Innermost(ts).job.Waiting?
  {
    hide FrameOk;
  }

  lemma BootInv(cfg: Config, sid: string, agent: string, task: string)
    ensures TeamInv(cfg, TeamBoot(cfg, sid, agent, task))
  {
    hide FrameOk, NewFrame;
    NewFrameIsOk(cfg, {}, sid, agent, 0, task);
    var ts := TeamBoot(cfg, sid, agent, task);
    assert RowOf(ts.members[0], ts.stack[0]);
    assert Live(ts.stack, sid);
  }

  lemma {:induction false} TeamStepsKeepInv(cfg: Config, ts: TeamState, ls: seq<TeamLabel>)
    requires TeamInv(cfg, ts) && TeamSteps(cfg, ts, ls).Some?
    ensures TeamInv(cfg, TeamSteps(cfg, ts, ls).value)
    decreases |ls|
  {
    hide TeamInv, TeamStep;
    if ls != [] {
      TeamStepsKeepInv(cfg, ts, ls[..|ls| - 1]);
      TeamStepKeepsInv(cfg, TeamSteps(cfg, ts, ls[..|ls| - 1]).value, ls[|ls| - 1]);
    }
  }

  // ------------------------------------------------------------------ theorems

  ghost predicate TeamReached(cfg: Config, sid: string, agent: string, task: string, ls: seq<TeamLabel>) {
    TeamSteps(cfg, TeamBoot(cfg, sid, agent, task), ls).Some?
  }

  lemma TeamReachedInv(cfg: Config, sid: string, agent: string, task: string, ls: seq<TeamLabel>)
    requires TeamReached(cfg, sid, agent, task, ls)
    ensures TeamInv(cfg, TeamSteps(cfg, TeamBoot(cfg, sid, agent, task), ls).value)
  {
    hide TeamInv, TeamBoot;
    BootInv(cfg, sid, agent, task);
    TeamStepsKeepInv(cfg, TeamBoot(cfg, sid, agent, task), ls);
  }

  /** If the process dies at any point of a team run, recovery finds every session above the innermost
      one quarantined, every session that had returned clean, and no other session. */
  lemma CrashInNestedDelegation(cfg: Config, sid: string, agent: string, task: string, ls: seq<TeamLabel>)
    requires ValidConfig(cfg) && TeamReached(cfg, sid, agent, task, ls)
    ensures var ts := TeamSteps(cfg, TeamBoot(cfg, sid, agent, task), ls).value;
      && (forall i :: 0 <= i < |ts.stack| - 1 ==> Classify(ts.stack[i].conf.db) == Quarantined)
      && (forall s :: s in ts.returned ==> Classify(ts.returned[s].1.db) == Clean)
      && (forall j :: 0 <= j < |ts.members| ==> Live(ts.stack, ts.members[j].sid) || ts.members[j].sid in ts.returned)
  {
    hide TeamBoot, FrameOk, MembersOk, TeamSteps, Classify;
    TeamReachedInv(cfg, sid, agent, task, ls);
    var ts := TeamSteps(cfg, TeamBoot(cfg, sid, agent, task), ls).value;
    forall i | 0 <= i < |ts.stack| - 1
      ensures Classify(ts.stack[i].conf.db) == Quarantined
    {
      ParkedIsQuarantined(cfg, ts.revoked, ts.stack[i]);
    }
  }

  /** While the delegate function runs, the session's journal ends in its open intent. */
  lemma ParkedIsQuarantined(cfg: Config, revoked: set<string>, f: Frame)
    requires ValidConfig(cfg) && FrameOk(cfg, revoked, f) && !f.job.NoJob?
    ensures Classify(f.conf.db) == Quarantined
  {
    hide LedgerOk, AtMostOnce, GatesKept, Sound, RefsBelow;
    assert DelegateDeclared(cfg.setupOf(f.agent));
  }

  /** In every session of a team run, live or returned, a finalize event comes only after a completion
      event for each child that the agent's policy requires. */
  lemma FinalizeWaitsForRequiredChildren(cfg: Config, sid: string, agent: string, task: string, ls: seq<TeamLabel>)
    requires TeamReached(cfg, sid, agent, task, ls)
    ensures var ts := TeamSteps(cfg, TeamBoot(cfg, sid, agent, task), ls).value;
      && (forall i :: 0 <= i < |ts.stack| ==>
            FinalizedLate(cfg.policyOf(ts.stack[i].agent).required, ts.stack[i].conf.db.ledger))
      && (forall s :: s in ts.returned ==>
            FinalizedLate(cfg.policyOf(ts.returned[s].0).required, ts.returned[s].1.db.ledger))
  {
    hide TeamBoot, MembersOk, TeamSteps, Classify, FinalizedLate, Inv, RowsOk, CountsOk, WithinLimit, DueOk;
    TeamReachedInv(cfg, sid, agent, task, ls);
  }

  lemma {:induction false} PrefixDelegations(a: seq<Event>, b: seq<Event>, child: string)
    ensures Delegations(a, child) <= Delegations(a + b, child)
    decreases |b|
  {
    if b == [] {
      assert a + b == a;
    } else {
      var n := |b| - 1;
      assert a + b == (a + b[..n]) + [b[n]];
      DelegationsSnoc(a + b[..n], b[n], child);
      PrefixDelegations(a, b[..n], child);
    }
  }

  /** No session logs more delegations of a child than its agent's policy allows, even if agents are
      revoked in the middle of a delegation. */
  lemma DelegationsStayWithinTheLimit(cfg: Config, sid: string, agent: string, task: string, ls: seq<TeamLabel>)
    requires TeamReached(cfg, sid, agent, task, ls)
    ensures var ts := TeamSteps(cfg, TeamBoot(cfg, sid, agent, task), ls).value;
      && (forall i :: 0 <= i < |ts.stack| ==> WithinLimit(cfg.policyOf(ts.stack[i].agent), ts.stack[i].conf.db.ledger))
      && (forall s :: s in ts.returned ==> WithinLimit(cfg.policyOf(ts.returned[s].0), ts.returned[s].1.db.ledger))
  {
    hide TeamBoot, MembersOk, TeamSteps, Classify, FinalizedLate, Inv, RowsOk, CountsOk, DueOk, Delegations;
    TeamReachedInv(cfg, sid, agent, task, ls);
    var ts := TeamSteps(cfg, TeamBoot(cfg, sid, agent, task), ls).value;
    forall i | 0 <= i < |ts.stack|
      ensures WithinLimit(cfg.policyOf(ts.stack[i].agent), ts.stack[i].conf.db.ledger)
    {
      var f := ts.stack[i];
      assert FrameOk(cfg, ts.revoked, f);
      forall child
        ensures Delegations(f.conf.db.ledger, child) <= Delegations(Logged(f), child)
      {
        PrefixDelegations(f.conf.db.ledger, if f.job.Writing? then f.job.events else [], child);
      }
    }
  }

  /** The sessions of a team run form one tree: every one but the lead has a parent session one level up,
      joined by a topology edge, and none is deeper than the limit. */
  lemma SessionsFormATree(cfg: Config, sid: string, agent: string, task: string, ls: seq<TeamLabel>)
    requires TeamReached(cfg, sid, agent, task, ls)
    ensures MembersOk(cfg, TeamSteps(cfg, TeamBoot(cfg, sid, agent, task), ls).value.members)
  {
    hide TeamBoot, MembersOk, TeamSteps, FrameOk, RowsOk, ReturnedOk;
    TeamReachedInv(cfg, sid, agent, task, ls);
  }

  /** Two started delegations are two emitted calls. */
  predicate DelegatedOnce(started: seq<Call>) {
    forall i, j :: 0 <= i < j < |started| && started[i].name == DELEGATE && started[j].name == DELEGATE ==>
      started[i].ref != started[j].ref
  }

  lemma DelegatesAreCalls(cfg: Config, agent: string, s: Conf)
    requires ValidConfig(cfg) && StartedSafely(cfg.setupOf(agent), s) && DELEGATE in cfg.setupOf(agent).tools
    ensures DelegatedOnce(s.started)
  {
    assert DelegateDeclared(cfg.setupOf(agent));
  }

  /** In every session of a team run, live or returned: no non-idempotent call has its function started
      twice, no gated one starts unapproved, none starts that is not permitted, and so no delegation is
      carried out twice. */
  lemma TeamCallsStartOnce(cfg: Config, sid: string, agent: string, task: string, ls: seq<TeamLabel>)
    requires ValidConfig(cfg) && TeamReached(cfg, sid, agent, task, ls)
    ensures var ts := TeamSteps(cfg, TeamBoot(cfg, sid, agent, task), ls).value;
      && (forall i :: 0 <= i < |ts.stack| ==> SafeSession(cfg, ts.stack[i].agent, ts.stack[i].conf))
      && (forall s :: s in ts.returned ==> SafeSession(cfg, ts.returned[s].0, ts.returned[s].1))
  {
    hide TeamBoot, MembersOk, TeamSteps, Classify, FinalizedLate, RowsOk, LedgerOk, JobOk, WithinLimit, AtMostOnce,
         GatesKept, DelegatedOnce, PhaseOk, PausedOk, Sound, ValidConfig;
    TeamReachedInv(cfg, sid, agent, task, ls);
    var ts := TeamSteps(cfg, TeamBoot(cfg, sid, agent, task), ls).value;
    forall i | 0 <= i < |ts.stack|
      ensures SafeSession(cfg, ts.stack[i].agent, ts.stack[i].conf)
    {
      assert FrameOk(cfg, ts.revoked, ts.stack[i]);
      IsSafeSession(cfg, ts.stack[i].agent, ts.stack[i].conf);
    }
    forall s | s in ts.returned
      ensures SafeSession(cfg, ts.returned[s].0, ts.returned[s].1)
    {
      IsSafeSession(cfg, ts.returned[s].0, ts.returned[s].1);
    }
  }

  predicate SafeSession(cfg: Config, agent: string, s: Conf) {
    StartedSafely(cfg.setupOf(agent), s) && (DELEGATE in cfg.setupOf(agent).tools ==> DelegatedOnce(s.started))
  }

  lemma IsSafeSession(cfg: Config, agent: string, s: Conf)
    requires ValidConfig(cfg) && StartedSafely(cfg.setupOf(agent), s)
    ensures SafeSession(cfg, agent, s)
  {
    hide StartedSafely, DelegatedOnce, ValidConfig;
    if DELEGATE in cfg.setupOf(agent).tools {
      DelegatesAreCalls(cfg, agent, s);
    }
  }
}
