/** A team run as a stack of kernels (scr/team.py): `TeamRunner.run` drives a kernel, whose
    non-idempotent `delegate` tool runs a child's kernel to completion before it returns.

    Each live session is a kernel machine; only the innermost one runs. A step is one step of that
    kernel, one row written by the delegate function, or the launch or return of a child. The
    process may die after any step, so a claim about every reachable state is a claim about every
    crash point. Agents may be revoked and the team cancelled between any two steps. */
module TeamMachine {
  import opened Basics
  import opened Capability
  import opened State
  import opened KernelSpec
  import opened Machine
  import opened Orchestration

  /** An agent's delegation policy. */
  datatype Policy = Policy(required: seq<string>, maxPerChild: Option<nat>, noRedelegate: bool, needNonempty: bool)

  /** `childOf` and `taskOf` read the delegate tool's arguments; `blank` is an empty stripped text. */
  datatype Config = Config(
    host: Host,
    team: TeamView,
    setupOf: string -> Setup,
    guards: Guards,
    policyOf: string -> Policy,
    childOf: string -> string,
    taskOf: string -> string,
    blank: string -> bool,
    maxDepth: nat)

  const DELEGATE := "delegate"

  /** The child's run raises when it asks for its authority again. */
  const REFUSED_AT_START := "TOOL ERROR [tool_exception]"

  /** The framework's tool is declared non-idempotent and not parallel-safe. */
  predicate DelegateDeclared(k: Setup) {
    DELEGATE in k.tools ==> !k.tools[DELEGATE].idempotent && !k.tools[DELEGATE].parallelSafe
  }

  ghost predicate ValidConfig(cfg: Config) {
    forall agent :: DelegateDeclared(cfg.setupOf(agent))
  }

  function ChildrenOf(edges: Edges, agent: string): seq<string>
    decreases |edges|
  {
    if edges == [] then []
    else if edges[0].0 == agent then edges[0].1
    else ChildrenOf(edges[1..], agent)
  }

  /** `effective_manifest(child)` does not raise. */
  ghost predicate Authorized(cfg: Config, revoked: set<string>, child: string) {
    exists path :: GrantedAlong(cfg.host, cfg.team.(revoked := revoked), path, child)
  }

  /** It raises CapabilityDenied, which the delegate function does not catch. */
  ghost predicate Unusable(cfg: Config, revoked: set<string>, child: string) {
    exists path :: RefusedAlong(cfg.host, cfg.team.(revoked := revoked), path, child)
  }

  // ------------------------------------------------------------------ state

  datatype JobNext = Launch(child: string, task: string) | Finish(text: string)

  /** Where the delegate function of a session stands. */
  datatype Job =
    | NoJob
    | Starting
    | Writing(events: seq<Event>, next: JobNext)
    | Waiting(child: string, task: string)

  datatype Frame = Frame(
    agent: string,
    depth: nat,
    conf: Conf,
    count: map<string, nat>,
    completed: set<string>,
    denied: set<(string, string)>,
    job: Job)

  /** A `team_sessions` row. */
  datatype Member = Member(sid: string, agent: string, parent: Option<string>, depth: nat)

  /** `returned` holds the sessions whose run has ended, with their agents and their history. */
  datatype TeamState = TeamState(
    stack: seq<Frame>,
    returned: map<string, (string, Conf)>,
    members: seq<Member>,
    revoked: set<string>,
    cancelled: bool)

  datatype TeamLabel =
    | KernelStep(step: Label)
    | DecideAt(i: nat, aid: ApprovalId, decision: Decision, logged: bool)
    | JobGo
    | JobWrite
    | JobLaunch(sid: string)
    | JobReturn
    | JobFinish
    | RevokeAgent(name: string)
    | CancelTeam

  function Innermost(ts: TeamState): Frame
    requires ts.stack != []
  {
    ts.stack[|ts.stack| - 1]
  }

  function WithTop(ts: TeamState, f: Frame): TeamState
    requires ts.stack != []
  {
    ts.(stack := ts.stack[..|ts.stack| - 1] + [f])
  }

  function CountOf(f: Frame, child: string): nat {
    if child in f.count then f.count[child] else 0
  }

  // ------------------------------------------------------------------ the kernel's steps

  /** `required_children` not yet completed: the finalize guard's reason to refuse. */
  predicate Missing(p: Policy, completed: set<string>) {
    exists i :: 0 <= i < |p.required| && p.required[i] !in completed
  }

  predicate AtFinalAnswer(p: Phase) {
    p.Do? && p.ws == [] && p.next.Weigh? && p.next.calls == []
  }

  /** The kernel's own code; while the delegate function runs it waits. */
  predicate Allowed(cfg: Config, f: Frame, l: Label) {
    && f.job.NoJob?
    && OwnStep(l)
    && (l.Refuse? ==> Missing(cfg.policyOf(f.agent), f.completed))
    && (l.Proceed? && AtFinalAnswer(f.conf.phase) ==> !Missing(cfg.policyOf(f.agent), f.completed))
    && !(l.Proceed? && f.conf.phase.Do? && f.conf.phase.ws == [] && f.conf.phase.next.Leave?)
  }

  function JobOf(p: Phase): Job {
    if p.Running? && p.call.name == DELEGATE then Starting else NoJob
  }

  // ------------------------------------------------------------------ the delegate function

  /** The checks of `fn`, in order, and what it will write. */
  ghost function Decide(cfg: Config, ts: TeamState, f: Frame, child: string, task: string): Job {
    var p := cfg.policyOf(f.agent);
    if ts.cancelled then Writing([], Finish("CANCELLED: team run cancelled; no further delegation"))
    else if child !in ChildrenOf(cfg.team.edges, f.agent) then
      Writing([DelegateDenied(child, "not_a_delegate")], Finish("DENIED: not a delegate"))
    else if f.depth + 1 > cfg.maxDepth then
      Writing([DelegateDenied(child, "depth_limit")], Finish("DENIED: delegation depth limit reached"))
    else if p.noRedelegate && (child, task) in f.denied then
      Writing([PolicyLogged(child, "no_redelegate_after_denial", "denied")], Finish("DENIED by policy: already denied"))
    else if p.maxPerChild.Some? && CountOf(f, child) >= p.maxPerChild.value then
      Writing([PolicyLogged(child, "max_delegations_per_child", "denied")], Finish("DENIED by policy: limit reached"))
    else if Unusable(cfg, ts.revoked, child) then
      Writing([], Finish("TOOL ERROR [tool_exception]: CapabilityDenied"))
    else if !Authorized(cfg, ts.revoked, child) then
      Writing([DelegateDenied(child, "severed")], Finish("DENIED: delegation refused"))
    else
      Writing([Delegated(f.agent, child, f.depth + 1), MailLogged(f.agent, child, "task", task)], Launch(child, task))
  }

  function PolicyWrites(agent: string, p: Policy): seq<Write> {
    (if p == Policy([], None, false, false) then [] else [Log(PolicyDeclared(agent))]) + [Log(GrantContext(agent))]
  }

  /** The first writes of a session in `TeamRunner.run`, then the kernel's run. */
  function NewFrame(cfg: Config, sid: string, agent: string, depth: nat, task: string): Frame {
    Frame(agent, depth,
          Conf(FreshSession(sid), Do(PolicyWrites(agent, cfg.policyOf(agent)) + RunWrites(task), Top(1)), []),
          map[], {}, {}, NoJob)
  }

  /** `_child_all_denied`. */
  predicate AllDenied(ledger: seq<Event>) {
    && (exists i :: 0 <= i < |ledger| && ledger[i].CapDenied?)
    && forall i :: 0 <= i < |ledger| ==> !ledger[i].ToolExec?
  }

  function ResultText(text: string, reason: string): string {
    if text == "" && reason != "completed" then "CHILD STOPPED [" + reason + "]" else text
  }

  /** What the parent does with a child that came back. */
  function Absorb(cfg: Config, f: Frame, ledger: seq<Event>, text: string, reason: string): Frame
    requires f.job.Waiting?
  {
    var child, task, out := f.job.child, f.job.task, ResultText(text, reason);
    var mail := MailLogged(child, f.agent, "result", out);
    var g := f.(count := f.count[child := CountOf(f, child) + 1]);
    if AllDenied(ledger) then
      g.(denied := f.denied + {(child, task)},
         job := Writing([PolicyLogged(child, "no_redelegate_after_denial", "marked_denied"), mail], Finish(out)))
    else if cfg.policyOf(f.agent).needNonempty && cfg.blank(out) then
      g.(job := Writing([PolicyLogged(child, "require_nonempty_result", "not_counted"), mail], Finish(out)))
    else
      g.(completed := f.completed + {child},
         job := Writing([PolicyLogged(child, "required_children", "completed"), mail], Finish(out)))
  }

  ghost predicate SidUsed(ts: TeamState, sid: string) {
    exists i :: 0 <= i < |ts.members| && ts.members[i].sid == sid
  }

  // ------------------------------------------------------------------ steps

  ghost function TeamStep(cfg: Config, ts: TeamState, l: TeamLabel): Option<TeamState> {
    if ts.stack == [] then None
    else
      var f := Innermost(ts);
      match l
      case KernelStep(kl) =>
        if !Allowed(cfg, f, kl) then None
        else
          var c := Step(cfg.setupOf(f.agent), cfg.guards, f.conf, kl);
          if c.None? then None else Some(WithTop(ts, f.(conf := c.value, job := JobOf(c.value.phase))))
      case DecideAt(i, aid, decision, logged) =>
        if i >= |ts.stack| then None
        else
          var c := Step(cfg.setupOf(ts.stack[i].agent), cfg.guards, ts.stack[i].conf, Decided(aid, decision, logged));
          if c.None? then None else Some(ts.(stack := ts.stack[i := ts.stack[i].(conf := c.value)]))
      case JobGo =>
        if !(f.job.Starting? && f.conf.phase.Running?) then None
        else
          var args := f.conf.phase.call.args;
          Some(WithTop(ts, f.(job := Decide(cfg, ts, f, cfg.childOf(args), cfg.taskOf(args)))))
      case JobWrite =>
        if !(f.job.Writing? && f.job.events != []) then None
        else Some(WithTop(ts, f.(conf := f.conf.(db := Apply(f.conf.db, Log(f.job.events[0]))),
                                 job := f.job.(events := f.job.events[1..]))))
      case JobLaunch(sid) =>
        if !(f.job.Writing? && f.job.events == [] && f.job.next.Launch?) then None
        else if !Authorized(cfg, ts.revoked, f.job.next.child) then
          Some(WithTop(ts, f.(job := Writing([], Finish(REFUSED_AT_START)))))
        else if SidUsed(ts, sid) then None
        else
          var child, task := f.job.next.child, f.job.next.task;
          var parked := WithTop(ts, f.(job := Waiting(child, task)));
          Some(parked.(stack := parked.stack + [NewFrame(cfg, sid, child, f.depth + 1, task)],
                       members := ts.members + [Member(sid, child, Some(f.conf.db.sid), f.depth + 1)]))
      case JobReturn =>
        var n, p := |ts.stack| - 1, f.conf.phase;
        if !(n >= 1 && p.Do? && p.ws == [] && p.next.Leave? && ts.stack[n - 1].job.Waiting?) then None
        else
          var parent := Absorb(cfg, ts.stack[n - 1], f.conf.db.ledger, p.next.text, p.next.reason);
          Some(ts.(stack := ts.stack[..n - 1] + [parent],
                   returned := ts.returned[f.conf.db.sid := (f.agent, f.conf)]))
      case JobFinish =>
        if !(f.job.Writing? && f.job.events == [] && f.job.next.Finish?) then None
        else
          var c := Step(cfg.setupOf(f.agent), cfg.guards, f.conf, Returns(f.job.next.text));
          if c.None? then None else Some(WithTop(ts, f.(conf := c.value, job := NoJob)))
      case RevokeAgent(name) => Some(ts.(revoked := ts.revoked + {name}))
      case CancelTeam => Some(ts.(cancelled := true))
  }

  ghost function TeamSteps(cfg: Config, ts: TeamState, ls: seq<TeamLabel>): Option<TeamState>
    decreases |ls|
  {
    if ls == [] then Some(ts)
    else
      var before := TeamSteps(cfg, ts, ls[..|ls| - 1]);
      if before.None? then None else TeamStep(cfg, before.value, ls[|ls| - 1])
  }

  /** The team run as it starts: the lead session alone. */
  function TeamBoot(cfg: Config, sid: string, agent: string, task: string): TeamState {
    TeamState([NewFrame(cfg, sid, agent, 0, task)], map[], [Member(sid, agent, None, 0)], {}, false)
  }
}
