/** The kernel as a machine that can die anywhere (scr/kernel.py over scr/state.py).

    A step commits one row, starts one tool function, or moves the program counter. `Crash` is
    enabled in every state, inside a tool call too, and loses everything but the rows. Decisions may
    arrive between any two steps. Model replies, tool results, guard stops and cancels are labels, so
    a claim about all label sequences is a claim about every run. */
module Machine {
  import opened Basics
  import opened Capability
  import opened State
  import opened KernelSpec

  /** Where the kernel's code continues once its due writes are committed. */
  datatype Control =
    | Top(iteration: nat)
    | Asking(iteration: nat, attempt: nat, seqNo: nat)
    | Weigh(iteration: nat, text: string, calls: seq<Call>)
    | Exec(iteration: nat, calls: seq<Call>)
    | Tool(iteration: nat, call: Call, key: IdemKey, seqNo: nat, rest: seq<Call>)
    | Persisting(iteration: nat, batch: seq<Call>, results: seq<string>, rest: seq<Call>)
    | Saving(iteration: nat, call: Call, key: IdemKey, seqNo: nat, result: string,
             batch: seq<Call>, results: seq<string>, rest: seq<Call>)
    | Leave(text: string, reason: string)

  datatype Phase =
    | Idle
    | Do(ws: seq<Write>, next: Control)
    | Running(iteration: nat, call: Call, key: IdemKey, seqNo: nat, rest: seq<Call>)
    | Batching(iteration: nat, batch: seq<Call>, begun: set<nat>, rest: seq<Call>)

  /** `started` is history: the calls whose tool function has been started, in order. */
  datatype Conf = Conf(db: Session, phase: Phase, started: seq<Call>)

  datatype Label =
    | Crash
    | Decided(aid: ApprovalId, decision: Decision, logged: bool)
    | CallRun(text: string)
    | CallResume
    | CallRecover
    | Commit
    | HaltHere(reason: string)
    | Ask
    | Answer(reply: Reply)
    | Refuse(reason: string)
    | SeeCancel
    | Proceed
    | Returns(result: string)
    | Begin(i: nat)
    | Gather(results: seq<string>)

  /** A step of the kernel's own code, as against what its callers and the outside do. */
  predicate OwnStep(l: Label) {
    !(l.Crash? || l.Decided? || l.CallRun? || l.CallResume? || l.CallRecover?)
  }

  // -------------------------------------------------------------------- steps

  function ExecNext(k: Setup, db: Session, ahead: seq<Write>, iteration: nat, call: Call, rest: seq<Call>): Phase {
    var denial := Denial(k, call.name);
    if denial.Some? then Do(ahead + CapDeniedWrites(call, denial.value), Exec(iteration, rest))
    else Do(ahead + [IntentWrite(k, db, call)], Tool(iteration, call, NextKey(db, call), |db.journal| + 1, rest))
  }

  function AtExec(k: Setup, db: Session, iteration: nat, calls: seq<Call>): Phase {
    if calls == [] then Do([], Top(iteration + 1))
    else
      var n := EligibleRun(k, calls);
      if n >= 2 then Batching(iteration, calls[..n], {}, calls[n..])
      else
        match GateOf(k, db, calls[0])
        case Undecided => Do(PauseWrites(db.sid, calls), Leave("", "awaiting_approval"))
        case Refused(who) => Do(RefusedWrites(db.sid, calls[0], who), Exec(iteration, calls[1..]))
        case Cleared(who) => ExecNext(k, db, [ClearedWrite(db.sid, calls[0], who)], iteration, calls[0], calls[1..])
        case Open => ExecNext(k, db, [], iteration, calls[0], calls[1..])
  }

  function AtAnswer(g: Guards, iteration: nat, attempt: nat, seqNo: nat, r: Reply): Phase {
    match r
    case Response(text, calls, _, _) =>
      Do(AnsweredWrites(iteration, seqNo, r), Weigh(iteration, text, Tag(calls, seqNo)))
    case FatalError(error) =>
      Do([Log(ModelFailed(iteration, error))] + StopWrites("model_error"), Leave("", "model_error"))
    case TransientError(error) =>
      if attempt >= g.modelRetries
      then Do([Log(ModelFailed(iteration, error))] + StopWrites("model_error"), Leave("", "model_error"))
      else Do([Log(ModelRetried(iteration, attempt, error))], Asking(iteration, attempt + 1, seqNo))
  }

  /** The deterministic moves of the code. */
  function AtProceed(k: Setup, s: Conf, c: Control): Option<Conf> {
    match c
    case Weigh(i, text, calls) =>
      Some(s.(phase := if calls == [] then Do(FinalizeWrites(text, i), Leave(text, "completed"))
                       else Do(AssistantText(text), Exec(i, calls))))
    case Exec(i, calls) => Some(s.(phase := AtExec(k, s.db, i, calls)))
    case Tool(i, call, key, seqNo, rest) =>
      if key in s.db.results
      then Some(s.(phase := Do(DoneWrites(call, key, seqNo, true, s.db.results[key], false), Exec(i, rest))))
      else Some(s.(phase := Running(i, call, key, seqNo, rest), started := s.started + [call]))
    case Persisting(i, batch, results, rest) =>
      if batch == [] || results == [] then Some(s.(phase := Do([], Exec(i, rest))))
      else Some(s.(phase := Do([IntentWrite(k, s.db, batch[0])],
                               Saving(i, batch[0], NextKey(s.db, batch[0]), |s.db.journal| + 1, results[0],
                                      batch[1..], results[1..], rest))))
    case Saving(i, call, key, seqNo, result, batch, results, rest) =>
      var cached := key in s.db.results;
      Some(s.(phase := Do(DoneWrites(call, key, seqNo, cached, if cached then s.db.results[key] else result, true),
                          Persisting(i, batch, results, rest))))
    case Leave(_, _) => Some(s.(phase := Idle))
    case _ => None
  }

  /** None when the label is not enabled. */
  function Step(k: Setup, g: Guards, s: Conf, l: Label): Option<Conf> {
    match l
    case Crash => Some(s.(phase := Idle))
    case Decided(aid, decision, logged) =>
      var db := Apply(s.db, PutApproval(aid, decision));
      Some(s.(db := if logged then Apply(db, Log(ApprovalLogged(aid, decision))) else db))
    case CallRun(text) => if s.phase.Idle? then Some(s.(phase := Do(RunWrites(text), Top(1)))) else None
    case CallResume =>
      var tail := Tail(s.db);
      if s.phase.Idle? && tail.Some? && tail.value.Awaiting?
      then Some(s.(phase := Do([], Exec(0, tail.value.pending)))) else None
    case CallRecover =>
      if s.phase.Idle? then Some(s.(phase := Do(RecoverWrites(s.db), Leave("", "recovered")))) else None
    case Commit =>
      if s.phase.Do? && s.phase.ws != []
      then Some(s.(db := Apply(s.db, s.phase.ws[0]), phase := Do(s.phase.ws[1..], s.phase.next))) else None
    case HaltHere(reason) =>
      if s.phase.Do? && s.phase.ws == [] && (s.phase.next.Top? || s.phase.next.Weigh?)
      then Some(s.(phase := Do(StopWrites(reason), Leave("", reason)))) else None
    case Ask =>
      if s.phase.Do? && s.phase.ws == [] && s.phase.next.Top? && s.phase.next.iteration <= g.maxIterations
      then Some(s.(phase := Do([Journal(ModelIntent(s.phase.next.iteration))],
                               Asking(s.phase.next.iteration, 1, |s.db.journal| + 1)))) else None
    case Answer(reply) =>
      if s.phase.Do? && s.phase.ws == [] && s.phase.next.Asking?
      then Some(s.(phase := AtAnswer(g, s.phase.next.iteration, s.phase.next.attempt, s.phase.next.seqNo, reply)))
      else None
    case Refuse(reason) =>
      if s.phase.Do? && s.phase.ws == [] && s.phase.next.Weigh? && s.phase.next.calls == []
      then Some(s.(phase := Do(RefusalWrites(s.phase.next.text, reason), Top(s.phase.next.iteration + 1)))) else None
    case SeeCancel =>
      if s.phase.Do? && s.phase.ws == [] && s.phase.next.Exec? && s.phase.next.calls != []
      then Some(s.(phase := Do([Journal(Cancelled(s.phase.next.calls[0].name))], Top(s.phase.next.iteration + 1))))
      else None
    case Proceed =>
      if s.phase.Do? && s.phase.ws == [] then AtProceed(k, s, s.phase.next) else None
    case Returns(result) =>
      if s.phase.Running?
      then Some(s.(phase := Do(DoneWrites(s.phase.call, s.phase.key, s.phase.seqNo, false, result, false),
                               Exec(s.phase.iteration, s.phase.rest)))) else None
    case Begin(i) =>
      if s.phase.Batching? && i < |s.phase.batch| && i !in s.phase.begun
      then Some(s.(phase := s.phase.(begun := s.phase.begun + {i}), started := s.started + [s.phase.batch[i]]))
      else None
    case Gather(results) =>
      if s.phase.Batching? && |results| == |s.phase.batch|
         && forall i :: 0 <= i < |s.phase.batch| ==> i in s.phase.begun
      then Some(s.(phase := Do([], Persisting(s.phase.iteration, s.phase.batch, results, s.phase.rest)))) else None
  }

  /** The state after a whole label sequence; None if some label was not enabled. */
  function Steps(k: Setup, g: Guards, s: Conf, ls: seq<Label>): Option<Conf>
    decreases |ls|
  {
    if ls == [] then Some(s)
    else
      var before := Steps(k, g, s, ls[..|ls| - 1]);
      if before.None? then None else Step(k, g, before.value, ls[|ls| - 1])
  }

  function Boot(sid: string): Conf {
    Conf(FreshSession(sid), Idle, [])
  }

  // ---------------------------------------------------------------- invariant

  predicate AtMostOnce(k: Setup, started: seq<Call>) {
    forall i, j :: 0 <= i < j < |started| && NonIdempotent(k, started[i]) && NonIdempotent(k, started[j])
      ==> started[i].ref != started[j].ref
  }

  predicate Approved(db: Session, call: Call) {
    var aid := ApprovalIdOf(db.sid, call);
    aid in db.approvals && db.approvals[aid].approved
  }

  predicate GatesKept(k: Setup, db: Session, started: seq<Call>) {
    forall i :: 0 <= i < |started| && Gated(k, started[i]) ==> Approved(db, started[i])
  }

  predicate RefsBelow(calls: seq<Call>, n: nat) {
    forall i :: 0 <= i < |calls| ==> calls[i].ref.response <= n
  }

  predicate DistinctRefs(calls: seq<Call>) {
    forall i, j :: 0 <= i < j < |calls| ==> calls[i].ref != calls[j].ref
  }

  /** None of the non-idempotent calls has been started. */
  predicate Unstarted(k: Setup, calls: seq<Call>, started: seq<Call>) {
    forall i, j :: 0 <= i < |calls| && 0 <= j < |started| && NonIdempotent(k, calls[i]) && NonIdempotent(k, started[j])
      ==> calls[i].ref != started[j].ref
  }

  /** Calls that may still be executed without starting anything twice. */
  predicate Sound(k: Setup, n: nat, started: seq<Call>, calls: seq<Call>) {
    RefsBelow(calls, n) && DistinctRefs(calls) && Unstarted(k, calls, started)
  }

  /** The calls the running code still has in hand. */
  function ControlTodo(c: Control): seq<Call> {
    match c
    case Weigh(_, _, calls) => calls
    case Exec(_, calls) => calls
    case Tool(_, call, _, _, rest) => [call] + rest
    case Persisting(_, _, _, rest) => rest
    case Saving(_, _, _, _, _, _, _, rest) => rest
    case _ => []
  }

  function Todo(p: Phase): seq<Call> {
    match p
    case Idle => []
    case Do(_, c) => ControlTodo(c)
    case Running(_, _, _, _, rest) => rest
    case Batching(_, _, _, rest) => rest
  }

  /** The journal ends in this call's open intent and its result is not saved. */
  predicate IntentOpen(k: Setup, db: Session, call: Call, key: IdemKey, seqNo: nat) {
    && call.name in k.tools
    && Tail(db) == Some(ExecIntent(call.name, call.args, k.tools[call.name].idempotent, key))
    && seqNo == |db.journal|
    && key.seqNo == seqNo
    && key !in db.results
  }

  predicate WriteOk(k: Setup, n: nat, started: seq<Call>, w: Write) {
    && (w.Journal? && w.rec.Awaiting? ==> Sound(k, n, started, w.rec.pending))
    && (w.PutResult? ==> w.key.seqNo <= n)
    && !w.PutApproval?
  }

  predicate WritesOk(k: Setup, n: nat, started: seq<Call>, ws: seq<Write>) {
    forall i :: 0 <= i < |ws| ==> WriteOk(k, n, started, ws[i])
  }

  /** What holds at a control point, of the rows there (`db`). */
  predicate ControlOk(k: Setup, db: Session, started: seq<Call>, c: Control) {
    match c
    case Asking(_, _, seqNo) =>
      seqNo <= |db.journal| && forall i :: 0 <= i < |started| ==> started[i].ref.response < seqNo
    case Tool(_, call, key, seqNo, _) => IntentOpen(k, db, call, key, seqNo)
    case Saving(_, call, key, seqNo, _, batch, _, _) =>
      seqNo == |db.journal| && key.seqNo == seqNo
    case Leave(_, _) => Classify(db) == Clean
    case _ => true
  }

  predicate PhaseOk(k: Setup, s: Conf) {
    match s.phase
    case Idle => true
    case Do(ws, c) =>
      && WritesOk(k, |s.db.journal|, s.started, ws)
      && ControlOk(k, ApplyAll(s.db, ws), s.started, c)
      && (c.Tool? && Gated(k, c.call) ==> Approved(s.db, c.call))
    case Running(_, call, key, seqNo, _) =>
      IntentOpen(k, s.db, call, key, seqNo) && call in s.started
    case Batching(_, batch, begun, _) =>
      && RefsBelow(batch, |s.db.journal|)
      && forall i :: 0 <= i < |batch| ==> BatchEligible(k, batch[i])
  }

  /** The calls a resume would pick up. */
  predicate PausedOk(k: Setup, s: Conf) {
    var tail := Tail(s.db);
    tail.Some? && tail.value.Awaiting? ==> Sound(k, |s.db.journal|, s.started, tail.value.pending)
  }

  predicate Inv(k: Setup, s: Conf) {
    && FreshKeys(s.db)
    && AtMostOnce(k, s.started)
    && GatesKept(k, s.db, s.started)
    && RefsBelow(s.started, |s.db.journal|)
    && Sound(k, |s.db.journal|, s.started, Todo(s.phase))
    && PausedOk(k, s)
    && PhaseOk(k, s)
  }
}
