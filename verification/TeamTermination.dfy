/** Team runs end (scr/team.py over scr/kernel.py): the steps the run takes by itself are bounded by
    the guards, the depth limit and the size of the model's answers, and until the lead session has
    its result some step is always possible. */
module TeamTermination {
  import opened Basics
  import opened Capability
  import opened State
  import opened KernelSpec
  import opened Machine
  import opened Orchestration
  import opened TeamMachine
  import opened TeamSafety

  // ------------------------------------------------------------------ ranks

  function Minus(a: nat, b: nat): nat {
    if a < b then 0 else a - b
  }

  /** More than one iteration can cost, when no answer holds more than `most` calls. */
  function IterationCost(g: Guards, most: nat): nat {
    40 * most + 2 * g.modelRetries + 20
  }

  function TopRank(g: Guards, most: nat, iteration: nat): nat {
    Minus(g.maxIterations + 1, iteration) * IterationCost(g, most) + 8
  }

  function ExecRank(g: Guards, most: nat, iteration: nat, calls: nat): nat {
    TopRank(g, most, iteration + 1) + 40 * calls + 2
  }

  /** An upper bound on the steps left to a kernel whose writes are committed. */
  function ControlRank(g: Guards, most: nat, c: Control): nat {
    match c
    case Top(i) => TopRank(g, most, i)
    case Asking(i, attempt, _) => TopRank(g, most, i + 1) + 40 * most + 2 * Minus(g.modelRetries + 1, attempt) + 12
    case Weigh(i, _, calls) => ExecRank(g, most, i, |calls|) + 4
    case Exec(i, calls) => ExecRank(g, most, i, |calls|)
    case Tool(i, _, _, _, rest) => ExecRank(g, most, i, |rest|) + 24
    case Persisting(i, batch, _, rest) => ExecRank(g, most, i, |rest|) + 12 * |batch| + 2
    case Saving(i, _, _, _, _, batch, _, rest) => ExecRank(g, most, i, |rest|) + 12 * |batch| + 10
    case Leave(_, _) => 0
  }

  /** How many of the first n batched functions have not been started. */
  function Unbegun(n: nat, begun: set<nat>): (left: nat)
    ensures left <= n
  {
    if n == 0 then 0 else Unbegun(n - 1, begun) + (if n - 1 in begun then 0 else 1)
  }

  function PhaseRank(g: Guards, most: nat, p: Phase): nat {
    match p
    case Idle => 0
    case Do(ws, c) => |ws| + ControlRank(g, most, c)
    case Running(i, _, _, _, rest) => ExecRank(g, most, i, |rest|) + 8
    case Batching(i, batch, begun, rest) =>
      ExecRank(g, most, i, |rest|) + 12 * |batch| + Unbegun(|batch|, begun) + 3
  }

  function JobRank(j: Job): nat {
    match j
    case NoJob => 0
    case Starting => 12
    case Writing(events, Launch(_, _)) => |events| + 8
    case Writing(events, Finish(_)) => |events| + 1
    case Waiting(_, _) => 6
  }

  function FrameRank(g: Guards, most: nat, f: Frame): nat {
    PhaseRank(g, most, f.conf.phase) + JobRank(f.job)
  }

  /** The rank of a session as it starts is at most this. */
  function SessionCost(g: Guards, most: nat): nat {
    g.maxIterations * IterationCost(g, most) + 12
  }

  function Power(b: nat, n: nat): nat {
    if n == 0 then 1 else b * Power(b, n - 1)
  }

  /** One step of a session may pay for a whole session one level down. */
  function StepWorth(cfg: Config, most: nat, depth: nat): nat {
    Power(SessionCost(cfg.guards, most) + 1, Minus(cfg.maxDepth, depth))
  }

  function Worth(cfg: Config, most: nat, f: Frame): nat {
    FrameRank(cfg.guards, most, f) * StepWorth(cfg, most, f.depth)
  }

  function Potential(cfg: Config, most: nat, stack: seq<Frame>): nat {
    if stack == [] then 0
    else
      var n := |stack| - 1;
      Potential(cfg, most, stack[..n]) + Worth(cfg, most, stack[n])
  }

  // ------------------------------------------------------ every step lowers a rank

  predicate FewCalls(most: nat, l: Label) {
    l.Answer? && l.reply.Response? ==> |l.reply.calls| <= most
  }

  lemma NextTopIsLower(g: Guards, most: nat, i: nat)
    ensures TopRank(g, most, i + 1) <= TopRank(g, most, i)
    ensures i <= g.maxIterations ==> TopRank(g, most, i) == TopRank(g, most, i + 1) + IterationCost(g, most)
  {
    hide IterationCost;
    var cost := IterationCost(g, most);
    if i <= g.maxIterations {
      var left := Minus(g.maxIterations + 1, i + 1);
      assert Minus(g.maxIterations + 1, i) == left + 1;
      assert (left + 1) * cost == left * cost + cost;
    }
  }

  lemma ExecLowers(k: Setup, g: Guards, most: nat, db: Session, i: nat, calls: seq<Call>)
    ensures PhaseRank(g, most, AtExec(k, db, i, calls)) < ExecRank(g, most, i, |calls|)
  {
    hide TopRank, Denial, EligibleRun;
  }

  lemma {:induction false} BeginLowers(n: nat, begun: set<nat>, i: nat)
    requires i !in begun
    ensures Unbegun(n, begun) == Unbegun(n, begun + {i}) + (if i < n then 1 else 0)
  {
    if n > 0 {
      BeginLowers(n - 1, begun, i);
    }
  }

  lemma {:induction false} AllBegun(n: nat, begun: set<nat>)
    ensures Unbegun(n, begun) == 0 || exists i :: 0 <= i < n && i !in begun
    ensures Unbegun(n, begun) == 0 ==> forall i :: 0 <= i < n ==> i in begun
  {
    if n > 0 {
      AllBegun(n - 1, begun);
    }
  }

  lemma ProceedLowers(k: Setup, g: Guards, most: nat, s: Conf, c: Control)
    requires AtProceed(k, s, c).Some? && !c.Leave?
    ensures PhaseRank(g, most, AtProceed(k, s, c).value.phase) + JobRank(JobOf(AtProceed(k, s, c).value.phase))
          < ControlRank(g, most, c)
  {
    hide AtExec, TopRank, IsToolError;
    if c.Exec? {
      ExecLowers(k, g, most, s.db, c.iteration, c.calls);
      ExecRunsNothing(k, s.db, c.iteration, c.calls);
    }
  }

  lemma ExecRunsNothing(k: Setup, db: Session, i: nat, calls: seq<Call>)
    ensures !AtExec(k, db, i, calls).Running?
  {
    hide Denial, EligibleRun;
  }

  lemma AnswerLowers(g: Guards, most: nat, i: nat, attempt: nat, seqNo: nat, r: Reply)
    requires FewCalls(most, Answer(r))
    ensures var p := AtAnswer(g, i, attempt, seqNo, r);
      p.Do? && PhaseRank(g, most, p) < ControlRank(g, most, Asking(i, attempt, seqNo))
  {
    hide TopRank;
  }

  lemma MoveLowers(k: Setup, g: Guards, most: nat, s: Conf, l: Label)
    requires Step(k, g, s, l).Some? && s.phase.Do? && s.phase.ws == []
    requires l.HaltHere? || l.Ask? || l.Refuse? || l.SeeCancel?
    ensures var p := Step(k, g, s, l).value.phase;
      p.Do? && PhaseRank(g, most, p) < PhaseRank(g, most, s.phase)
  {
    hide TopRank;
    NextTopIsLower(g, most, s.phase.next.iteration);
    TopIsPositive(g, most, s.phase.next.iteration);
  }

  lemma ToolLowers(k: Setup, g: Guards, most: nat, s: Conf, l: Label)
    requires Step(k, g, s, l).Some? && (l.Returns? || l.Begin? || l.Gather?)
    ensures var p := Step(k, g, s, l).value.phase;
      (p.Do? || p.Batching?) && PhaseRank(g, most, p) < PhaseRank(g, most, s.phase)
  {
    hide DoneWrites, ExecRank;
    if l.Returns? {
      DoneIsShort(s.phase.call, s.phase.key, s.phase.seqNo, false, l.result, false);
    } else if l.Begin? {
      BeginLowers(|s.phase.batch|, s.phase.begun, l.i);
    }
  }

  /** Every step a kernel takes inside a team lowers its rank, enough to pay for a job it starts. */
  lemma KernelStepLowers(k: Setup, g: Guards, most: nat, s: Conf, l: Label)
    requires Step(k, g, s, l).Some? && FewCalls(most, l)
    requires OwnStep(l)
    requires !(l.Proceed? && s.phase.Do? && s.phase.next.Leave?)
    ensures var p := Step(k, g, s, l).value.phase;
      !p.Idle? && PhaseRank(g, most, p) + JobRank(JobOf(p)) < PhaseRank(g, most, s.phase)
  {
    hide AtProceed, AtAnswer, DoneWrites, ControlRank, ExecRank;
    match l {
      case Commit =>
      case Answer(r) => AnswerLowers(g, most, s.phase.next.iteration, s.phase.next.attempt, s.phase.next.seqNo, r);
      case Proceed =>
        ProceedLowers(k, g, most, s, s.phase.next);
        ProceedIsNotIdle(k, s, s.phase.next);
      case Returns(_) => ToolLowers(k, g, most, s, l);
      case Begin(_) => ToolLowers(k, g, most, s, l);
      case Gather(_) => ToolLowers(k, g, most, s, l);
      case _ => MoveLowers(k, g, most, s, l);
    }
  }

  lemma TopIsPositive(g: Guards, most: nat, i: nat)
    ensures TopRank(g, most, i) >= 8
  {
  }

  lemma ProceedIsNotIdle(k: Setup, s: Conf, c: Control)
    requires AtProceed(k, s, c).Some? && !c.Leave?
    ensures !AtProceed(k, s, c).value.phase.Idle?
  {
    hide Denial, EligibleRun, DoneWrites;
  }

  lemma DoneIsShort(call: Call, key: IdemKey, seqNo: nat, cached: bool, result: string, parallel: bool)
    ensures |DoneWrites(call, key, seqNo, cached, result, parallel)| <= 5
  {
    hide IsToolError;
  }

  // ------------------------------------------------------------------ the stack

  lemma PowerIsPositive(b: nat, n: nat)
    requires b > 0
    ensures Power(b, n) > 0
  {
  }

  lemma SnocPotential(cfg: Config, most: nat, stack: seq<Frame>, f: Frame)
    ensures Potential(cfg, most, stack + [f]) == Potential(cfg, most, stack) + Worth(cfg, most, f)
  {
    assert (stack + [f])[..|stack|] == stack;
  }

  /** A session that goes one rank down frees one step's worth. */
  lemma LowerWorth(cfg: Config, most: nat, f: Frame, f': Frame)
    requires f'.depth == f.depth && FrameRank(cfg.guards, most, f') < FrameRank(cfg.guards, most, f)
    ensures Worth(cfg, most, f') + StepWorth(cfg, most, f.depth) <= Worth(cfg, most, f)
    ensures StepWorth(cfg, most, f.depth) > 0
  {
    hide FrameRank;
    PowerIsPositive(SessionCost(cfg.guards, most) + 1, Minus(cfg.maxDepth, f.depth));
    var a, b, w := FrameRank(cfg.guards, most, f'), FrameRank(cfg.guards, most, f), StepWorth(cfg, most, f.depth);
    TimesIsMonotone(a + 1, b, w);
    assert (a + 1) * w == a * w + w;
  }

  lemma TimesIsMonotone(a: nat, b: nat, w: nat)
    requires a <= b
    ensures a * w <= b * w
  {
    var d := b - a;
    assert b * w == a * w + d * w;
  }

  lemma LowerTop(cfg: Config, most: nat, ts: TeamState, f': Frame)
    requires ts.stack != []
    requires var f := Innermost(ts);
      f'.depth == f.depth && FrameRank(cfg.guards, most, f') < FrameRank(cfg.guards, most, f)
    ensures Potential(cfg, most, WithTop(ts, f').stack) < Potential(cfg, most, ts.stack)
  {
    hide FrameRank, Worth;
    var n := |ts.stack| - 1;
    assert ts.stack == ts.stack[..n] + [ts.stack[n]];
    SnocPotential(cfg, most, ts.stack[..n], ts.stack[n]);
    SnocPotential(cfg, most, ts.stack[..n], f');
    LowerWorth(cfg, most, ts.stack[n], f');
  }

  lemma NewSessionCost(cfg: Config, most: nat, sid: string, agent: string, depth: nat, task: string)
    ensures FrameRank(cfg.guards, most, NewFrame(cfg, sid, agent, depth, task)) <= SessionCost(cfg.guards, most)
  {
    hide IterationCost;
  }

  /** A child's whole run is worth less than the one step its parent spent on launching it. */
  lemma ChildIsPaidFor(cfg: Config, most: nat, sid: string, agent: string, depth: nat, task: string)
    requires depth + 1 <= cfg.maxDepth
    ensures Worth(cfg, most, NewFrame(cfg, sid, agent, depth + 1, task)) < StepWorth(cfg, most, depth)
  {
    hide FrameRank, NewFrame, SessionCost;
    var h := NewFrame(cfg, sid, agent, depth + 1, task);
    assert h.depth == depth + 1 by { NewFrameDepth(cfg, sid, agent, depth + 1, task); }
    NewSessionCost(cfg, most, sid, agent, depth + 1, task);
    var cost, below := SessionCost(cfg.guards, most), StepWorth(cfg, most, depth + 1);
    PowerIsPositive(cost + 1, Minus(cfg.maxDepth, depth + 1));
    assert StepWorth(cfg, most, depth) == (cost + 1) * below;
    TimesIsMonotone(FrameRank(cfg.guards, most, h), cost, below);
    assert (cost + 1) * below == cost * below + below;
  }

  lemma NewFrameDepth(cfg: Config, sid: string, agent: string, depth: nat, task: string)
    ensures NewFrame(cfg, sid, agent, depth, task).depth == depth
    ensures !NewFrame(cfg, sid, agent, depth, task).conf.phase.Idle?
  {
  }

  lemma LaunchLowers(cfg: Config, most: nat, ts: TeamState, sid: string)
    requires ts.stack != []
    requires var f := Innermost(ts);
      f.job.Writing? && f.job.events == [] && f.job.next.Launch? && f.depth + 1 <= cfg.maxDepth
    ensures var f := Innermost(ts);
      var child, task := f.job.next.child, f.job.next.task;
      var parked := WithTop(ts, f.(job := Waiting(child, task)));
      var launched := parked.stack + [NewFrame(cfg, sid, child, f.depth + 1, task)];
      Potential(cfg, most, launched) < Potential(cfg, most, ts.stack)
  {
    hide Worth, NewFrame, PhaseRank, StepWorth;
    var n, f := |ts.stack| - 1, Innermost(ts);
    var child, task := f.job.next.child, f.job.next.task;
    var g, h := f.(job := Waiting(child, task)), NewFrame(cfg, sid, child, f.depth + 1, task);
    assert ts.stack == ts.stack[..n] + [f];
    SnocPotential(cfg, most, ts.stack[..n], f);
    SnocPotential(cfg, most, ts.stack[..n], g);
    SnocPotential(cfg, most, ts.stack[..n] + [g], h);
    LowerWorth(cfg, most, f, g);
    ChildIsPaidFor(cfg, most, sid, child, f.depth, task);
  }

  lemma ReturnLowers(cfg: Config, most: nat, ts: TeamState, parent: Frame)
    requires |ts.stack| >= 2
    requires var f := ts.stack[|ts.stack| - 2];
      parent.depth == f.depth && FrameRank(cfg.guards, most, parent) < FrameRank(cfg.guards, most, f)
    ensures Potential(cfg, most, ts.stack[..|ts.stack| - 2] + [parent]) < Potential(cfg, most, ts.stack)
  {
    hide Worth, FrameRank;
    var n := |ts.stack| - 1;
    assert ts.stack == ts.stack[..n - 1] + [ts.stack[n - 1]] + [ts.stack[n]];
    SnocPotential(cfg, most, ts.stack[..n - 1], ts.stack[n - 1]);
    SnocPotential(cfg, most, ts.stack[..n - 1] + [ts.stack[n - 1]], ts.stack[n]);
    SnocPotential(cfg, most, ts.stack[..n - 1], parent);
    LowerWorth(cfg, most, ts.stack[n - 1], parent);
  }

  lemma {:induction false} SamePotential(cfg: Config, most: nat, a: seq<Frame>, b: seq<Frame>)
    requires |a| == |b|
    requires forall i :: 0 <= i < |a| ==>
      a[i].depth == b[i].depth && a[i].conf.phase == b[i].conf.phase && a[i].job == b[i].job
    ensures Potential(cfg, most, a) == Potential(cfg, most, b)
    decreases |a|
  {
    if a != [] {
      SamePotential(cfg, most, a[..|a| - 1], b[..|b| - 1]);
    }
  }

  // ------------------------------------------------------------------ whole runs

  /** Steps of the run itself, as against decisions, revocations and a cancel from outside. */
  predicate OfTheRun(l: TeamLabel) {
    !(l.DecideAt? || l.RevokeAgent? || l.CancelTeam?)
  }

  predicate FewCallsAt(most: nat, l: TeamLabel) {
    l.KernelStep? ==> FewCalls(most, l.step)
  }

  /** No session of the run is idle: a kernel that has left stays at its exit until it is collected. */
  predicate NoneIdle(stack: seq<Frame>) {
    forall i :: 0 <= i < |stack| ==> !stack[i].conf.phase.Idle?
  }

  lemma DecideLowers(cfg: Config, ts: TeamState, f: Frame, child: string, task: string)
    ensures JobRank(Decide(cfg, ts, f, child, task)) < 12
  {
    hide Authorized, Unusable, ChildrenOf;
  }

  lemma FinishLowers(cfg: Config, most: nat, f: Frame)
    requires f.job.Writing? && f.job.next.Finish?
    requires Step(cfg.setupOf(f.agent), cfg.guards, f.conf, Returns(f.job.next.text)).Some?
    ensures var c := Step(cfg.setupOf(f.agent), cfg.guards, f.conf, Returns(f.job.next.text)).value;
      !c.phase.Idle? && FrameRank(cfg.guards, most, f.(conf := c, job := NoJob)) < FrameRank(cfg.guards, most, f)
  {
    hide PhaseRank;
    ToolLowers(cfg.setupOf(f.agent), cfg.guards, most, f.conf, Returns(f.job.next.text));
  }

  lemma JobStepLowers(cfg: Config, most: nat, ts: TeamState, l: TeamLabel)
    requires NoneIdle(ts.stack) && TeamStep(cfg, ts, l).Some?
    requires l.JobGo? || l.JobWrite? || l.JobFinish?
    ensures var ts' := TeamStep(cfg, ts, l).value;
      NoneIdle(ts'.stack) && Potential(cfg, most, ts'.stack) < Potential(cfg, most, ts.stack)
  {
    hide PhaseRank, Decide, Potential, Step;
    var f := Innermost(ts);
    if l.JobFinish? {
      FinishLowers(cfg, most, f);
    } else if l.JobGo? {
      DecideLowers(cfg, ts, f, cfg.childOf(f.conf.phase.call.args), cfg.taskOf(f.conf.phase.call.args));
    }
    LowerTop(cfg, most, ts, Innermost(TeamStep(cfg, ts, l).value));
  }

  lemma LaunchStepLowers(cfg: Config, most: nat, ts: TeamState, sid: string)
    requires TeamInv(cfg, ts) && NoneIdle(ts.stack) && TeamStep(cfg, ts, JobLaunch(sid)).Some?
    ensures var ts' := TeamStep(cfg, ts, JobLaunch(sid)).value;
      NoneIdle(ts'.stack) && Potential(cfg, most, ts'.stack) < Potential(cfg, most, ts.stack)
  {
    hide FrameOk, MembersOk, RowsOk, ReturnedOk, Authorized, PhaseRank, Potential, NewFrame, SidUsed;
    var f := Innermost(ts);
    if Authorized(cfg, ts.revoked, f.job.next.child) {
      LaunchIsOnAnEdge(cfg, ts.revoked, f);
      LaunchLowers(cfg, most, ts, sid);
      NewFrameDepth(cfg, sid, f.job.next.child, f.depth + 1, f.job.next.task);
    } else {
      LowerTop(cfg, most, ts, f.(job := Writing([], Finish(REFUSED_AT_START))));
    }
  }

  lemma ReturnStepLowers(cfg: Config, most: nat, ts: TeamState)
    requires NoneIdle(ts.stack) && TeamStep(cfg, ts, JobReturn).Some?
    ensures var ts' := TeamStep(cfg, ts, JobReturn).value;
      NoneIdle(ts'.stack) && Potential(cfg, most, ts'.stack) < Potential(cfg, most, ts.stack)
  {
    hide PhaseRank, Potential, Absorb;
    var n, f := |ts.stack| - 1, Innermost(ts);
    AbsorbShape(cfg, ts.stack[n - 1], f.conf.db.ledger, f.conf.phase.next.text, f.conf.phase.next.reason);
    ReturnLowers(cfg, most, ts,
      Absorb(cfg, ts.stack[n - 1], f.conf.db.ledger, f.conf.phase.next.text, f.conf.phase.next.reason));
  }

  lemma KernelStepLowersTeam(cfg: Config, most: nat, ts: TeamState, kl: Label)
    requires NoneIdle(ts.stack) && TeamStep(cfg, ts, KernelStep(kl)).Some? && FewCalls(most, kl)
    ensures var ts' := TeamStep(cfg, ts, KernelStep(kl)).value;
      NoneIdle(ts'.stack) && Potential(cfg, most, ts'.stack) < Potential(cfg, most, ts.stack)
  {
    hide PhaseRank, Potential, Missing;
    var f := Innermost(ts);
    var k := cfg.setupOf(f.agent);
    assert kl.Proceed? && f.conf.phase.Do? && f.conf.phase.ws != [] ==> Step(k, cfg.guards, f.conf, kl).None?;
    KernelStepLowers(k, cfg.guards, most, f.conf, kl);
    hide Step;
    var c := Step(k, cfg.guards, f.conf, kl).value;
    LowerTop(cfg, most, ts, f.(conf := c, job := JobOf(c.phase)));
  }

  /** Each step of the run itself lowers the potential; nothing from outside changes it. */
  lemma TeamStepLowers(cfg: Config, most: nat, ts: TeamState, l: TeamLabel)
    requires TeamInv(cfg, ts) && NoneIdle(ts.stack) && TeamStep(cfg, ts, l).Some? && FewCallsAt(most, l)
    ensures var ts' := TeamStep(cfg, ts, l).value;
      && NoneIdle(ts'.stack)
      && Potential(cfg, most, ts'.stack) + (if OfTheRun(l) then 1 else 0) <= Potential(cfg, most, ts.stack)
  {
    hide TeamInv, Potential, Step, Authorized, Absorb, NewFrame, Decide, NoneIdle;
    match l {
      case KernelStep(kl) => KernelStepLowersTeam(cfg, most, ts, kl);
      case JobLaunch(sid) => LaunchStepLowers(cfg, most, ts, sid);
      case JobReturn => ReturnStepLowers(cfg, most, ts);
      case DecideAt(i, aid, d, logged) => OutsideDecision(cfg, most, ts, i, aid, d, logged);
      case RevokeAgent(_) =>
      case CancelTeam =>
      case _ => JobStepLowers(cfg, most, ts, l);
    }
  }

  lemma OutsideDecision(cfg: Config, most: nat, ts: TeamState, i: nat, aid: ApprovalId, d: Decision, logged: bool)
    requires NoneIdle(ts.stack) && TeamStep(cfg, ts, DecideAt(i, aid, d, logged)).Some?
    ensures var ts' := TeamStep(cfg, ts, DecideAt(i, aid, d, logged)).value;
      NoneIdle(ts'.stack) && Potential(cfg, most, ts'.stack) == Potential(cfg, most, ts.stack)
  {
    hide Potential;
    var ts' := TeamStep(cfg, ts, DecideAt(i, aid, d, logged)).value;
    SamePotential(cfg, most, ts'.stack, ts.stack);
  }

  function OwnSteps(ls: seq<TeamLabel>): nat {
    if ls == [] then 0
    else OwnSteps(ls[..|ls| - 1]) + (if OfTheRun(ls[|ls| - 1]) then 1 else 0)
  }

  /** No answer of the run holds more than `most` calls. */
  predicate AnswersAtMost(most: nat, ls: seq<TeamLabel>) {
    forall i :: 0 <= i < |ls| ==> FewCallsAt(most, ls[i])
  }

  /** The most calls in any answer of the run. */
  function MostCalls(ls: seq<TeamLabel>): (most: nat)
    ensures AnswersAtMost(most, ls)
  {
    if ls == [] then 0
    else
      var rest, l := MostCalls(ls[1..]), ls[0];
      if FewCallsAt(rest, l) then rest else |l.step.reply.calls|
  }

  lemma {:induction false} StepsUsePotential(cfg: Config, most: nat, ts: TeamState, ls: seq<TeamLabel>)
    requires TeamInv(cfg, ts) && NoneIdle(ts.stack) && TeamSteps(cfg, ts, ls).Some? && AnswersAtMost(most, ls)
    ensures var ts' := TeamSteps(cfg, ts, ls).value;
      NoneIdle(ts'.stack) && Potential(cfg, most, ts'.stack) + OwnSteps(ls) <= Potential(cfg, most, ts.stack)
    decreases |ls|
  {
    hide TeamInv, TeamStep, Potential, NoneIdle;
    if ls != [] {
      var n := |ls| - 1;
      StepsUsePotential(cfg, most, ts, ls[..n]);
      TeamStepsKeepInv(cfg, ts, ls[..n]);
      TeamStepLowers(cfg, most, TeamSteps(cfg, ts, ls[..n]).value, ls[n]);
    }
  }

  /** The steps a team run can take by itself. */
  function TeamBound(cfg: Config, most: nat): nat {
    var cost := SessionCost(cfg.guards, most);
    cost * Power(cost + 1, cfg.maxDepth)
  }

  /** A team run of any shape, under any topology, takes no more steps than the guards allow:
      exponential in the depth limit, linear in iterations, retries and calls per answer for each
      level. */
  lemma TeamRunsAreBounded(cfg: Config, most: nat, sid: string, agent: string, task: string, ls: seq<TeamLabel>)
    requires TeamReached(cfg, sid, agent, task, ls) && AnswersAtMost(most, ls)
    ensures OwnSteps(ls) <= TeamBound(cfg, most)
  {
    hide TeamInv, NewFrame, FrameRank, SessionCost, OwnSteps, TeamSteps;
    var ts := TeamBoot(cfg, sid, agent, task);
    BootInv(cfg, sid, agent, task);
    NewFrameDepth(cfg, sid, agent, 0, task);
    StepsUsePotential(cfg, most, ts, ls);
    SnocPotential(cfg, most, [], ts.stack[0]);
    NewSessionCost(cfg, most, sid, agent, 0, task);
    assert [] + [ts.stack[0]] == ts.stack;
    var rank, cost := FrameRank(cfg.guards, most, ts.stack[0]), SessionCost(cfg.guards, most);
    var worth := StepWorth(cfg, most, 0);
    TimesIsMonotone(rank, cost, worth);
  }

  // ------------------------------------------------------------------ never stuck

  /** The lead session has its result and nothing else is live. */
  predicate Ended(ts: TeamState) {
    |ts.stack| == 1 && var p := ts.stack[0].conf.phase; p.Do? && p.ws == [] && p.next.Leave?
  }

  /** A guard, a cancel or the model's failure is not what lets the run go on: the only stop that counts
      as a move is the one at the iteration limit. */
  predicate Unforced(g: Guards, f: Frame, l: TeamLabel) {
    l.KernelStep? ==>
      && !l.step.SeeCancel?
      && (l.step.HaltHere? ==>
            var p := f.conf.phase; p.Do? && p.next.Top? && p.next.iteration > g.maxIterations)
  }

  ghost predicate CanMove(cfg: Config, ts: TeamState) {
    ts.stack != [] &&
    exists l :: TeamStep(cfg, ts, l).Some? && OfTheRun(l) && FewCallsAt(0, l) && Unforced(cfg.guards, Innermost(ts), l)
  }

  function Longer(members: seq<Member>): (s: string)
    ensures forall i :: 0 <= i < |members| ==> |members[i].sid| < |s|
  {
    if members == [] then "s"
    else
      var t := Longer(members[1..]);
      if |members[0].sid| < |t| then t else members[0].sid + "s"
  }

  lemma BatchCanMove(k: Setup, g: Guards, s: Conf)
    requires s.phase.Batching?
    ensures exists l :: Step(k, g, s, l).Some? && FewCalls(0, l) && (l.Begin? || l.Gather?)
  {
    AllBegun(|s.phase.batch|, s.phase.begun);
    if Unbegun(|s.phase.batch|, s.phase.begun) == 0 {
      assert Step(k, g, s, Gather(seq(|s.phase.batch|, _ => ""))).Some?;
    } else {
      var i: nat :| i < |s.phase.batch| && i !in s.phase.begun;
      assert Step(k, g, s, Begin(i)).Some?;
    }
  }

  /** The move the kernel's code makes from here, if it is not in the middle of a batch. */
  function KernelMove(g: Guards, missing: bool, p: Phase): Label {
    match p
    case Do(ws, c) =>
      if ws != [] then Commit
      else if c.Top? then (if c.iteration <= g.maxIterations then Ask else HaltHere("max_iterations"))
      else if c.Asking? then Answer(Response("", [], 0, 0))
      else if c.Weigh? && c.calls == [] && missing then Refuse("required team members have not completed")
      else Proceed
    case Running(_, _, _, _, _) => Returns("")
    case _ => Commit
  }

  lemma KernelCanMove(cfg: Config, f: Frame)
    requires var p := f.conf.phase; !p.Idle? && !p.Batching? && !(p.Do? && p.ws == [] && p.next.Leave?)
    requires f.job.NoJob?
    ensures var l := KernelMove(cfg.guards, Missing(cfg.policyOf(f.agent), f.completed), f.conf.phase);
      && Step(cfg.setupOf(f.agent), cfg.guards, f.conf, l).Some? && Allowed(cfg, f, l)
      && FewCalls(0, l) && Unforced(cfg.guards, f, KernelStep(l))
  {
    hide AtExec, AtAnswer, DoneWrites, Missing;
  }

  /** Where the innermost session has no job under way, its kernel can move. */
  lemma KernelTurn(cfg: Config, ts: TeamState)
    requires ts.stack != [] && var f := Innermost(ts);
      f.job.NoJob? && !f.conf.phase.Idle? && !(f.conf.phase.Do? && f.conf.phase.ws == [] && f.conf.phase.next.Leave?)
    ensures CanMove(cfg, ts)
  {
    hide Step, Missing;
    var f := Innermost(ts);
    var k := cfg.setupOf(f.agent);
    if f.conf.phase.Batching? {
      BatchCanMove(k, cfg.guards, f.conf);
      var kl :| Step(k, cfg.guards, f.conf, kl).Some? && FewCalls(0, kl) && (kl.Begin? || kl.Gather?);
      assert TeamStep(cfg, ts, KernelStep(kl)).Some?;
    } else {
      KernelCanMove(cfg, f);
      var kl := KernelMove(cfg.guards, Missing(cfg.policyOf(f.agent), f.completed), f.conf.phase);
      assert TeamStep(cfg, ts, KernelStep(kl)).Some?;
    }
  }

  /** Where a delegation is under way in the innermost session, it can move. */
  lemma JobTurn(cfg: Config, ts: TeamState)
    requires ts.stack != [] && var f := Innermost(ts); f.conf.phase.Running? && (f.job.Starting? || f.job.Writing?)
    ensures CanMove(cfg, ts)
  {
    hide Decide, Authorized, NewFrame, DoneWrites;
    var f := Innermost(ts);
    if f.job.Starting? {
      assert TeamStep(cfg, ts, JobGo).Some?;
    } else if f.job.events != [] {
      assert TeamStep(cfg, ts, JobWrite).Some?;
    } else if f.job.next.Finish? {
      assert TeamStep(cfg, ts, JobFinish).Some?;
    } else {
      var sid := Longer(ts.members);
      assert !SidUsed(ts, sid);
      assert TeamStep(cfg, ts, JobLaunch(sid)).Some?;
    }
  }

  /** A reached team run has ended or can take a step of its own. With the bound on such steps: every
      team run ends, and ends with the lead session's result. */
  lemma TeamRunsAreNeverStuck(cfg: Config, sid: string, agent: string, task: string, ls: seq<TeamLabel>)
    requires TeamReached(cfg, sid, agent, task, ls)
    ensures var ts := TeamSteps(cfg, TeamBoot(cfg, sid, agent, task), ls).value;
      Ended(ts) || CanMove(cfg, ts)
  {
    hide TeamSteps, TeamStep, NewFrame, Potential;
    var boot := TeamBoot(cfg, sid, agent, task);
    var ts := TeamSteps(cfg, boot, ls).value;
    NewFrameDepth(cfg, sid, agent, 0, task);
    BootInv(cfg, sid, agent, task);
    StepsUsePotential(cfg, MostCalls(ls), boot, ls);
    TeamReachedInv(cfg, sid, agent, task, ls);
    InvCanMove(cfg, ts);
  }

  lemma InvCanMove(cfg: Config, ts: TeamState)
    requires TeamInv(cfg, ts) && NoneIdle(ts.stack)
    ensures Ended(ts) || CanMove(cfg, ts)
  {
    hide Inv, LedgerOk, RowsOk, MembersOk, ReturnedOk, TeamStep;
    var f, n := Innermost(ts), |ts.stack| - 1;
    assert FrameOk(cfg, ts.revoked, f) && !f.job.Waiting?;
    if !f.job.NoJob? {
      JobTurn(cfg, ts);
    } else if !(f.conf.phase.Do? && f.conf.phase.ws == [] && f.conf.phase.next.Leave?) {
      KernelTurn(cfg, ts);
    } else if n >= 1 {
      assert ts.stack[n - 1].job.Waiting?;
      CollectTurn(cfg, ts);
    }
  }

  lemma CollectTurn(cfg: Config, ts: TeamState)
    requires |ts.stack| >= 2 && ts.stack[|ts.stack| - 2].job.Waiting?
    requires var p := Innermost(ts).conf.phase; p.Do? && p.ws == [] && p.next.Leave?
    ensures CanMove(cfg, ts)
  {
    hide Absorb;
    assert TeamStep(cfg, ts, JobReturn).Some?;
  }
}
