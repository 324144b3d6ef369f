/** What the agent kernel computes (scr/kernel.py), as functions of the session's rows and of the
    outside world: tool functions, model replies, cancel polls and clock readings are oracles. */
module KernelSpec {
  import opened Basics
  import opened Capability
  import opened State

  datatype ToolSpec = ToolSpec(idempotent: bool, parallelSafe: bool, classification: string)

  /** The kernel's tools, its effective manifest and the policy's approval rule (name, args). */
  datatype Setup = Setup(tools: map<string, ToolSpec>, manifest: Manifest, gated: (string, string) -> bool)

  datatype Guards = Guards(maxIterations: nat, maxTokenEstimate: nat, cycleThreshold: nat,
                           maxTotalTokens: nat, modelRetries: nat)

  /** A tool call as the model emits it. */
  datatype Emission = Emission(id: string, name: string, args: string)

  datatype Reply =
    | Response(text: string, calls: seq<Emission>, inTokens: nat, outTokens: nat)
    | TransientError(error: string)
    | FatalError(error: string)

  /** Everything outside the store. `fn` is a tool function with exceptions folded to text;
      `schedule(polls, n)` is the order in which n batched functions happen to run; `adapter` gives
      the reply to the k-th attempt; `cancelled` and `late` are the readings at the k-th poll;
      `estimate` stands for the token estimate of the assembled context; `refusal` is the finalize
      guard, "" meaning that finalization is allowed. */
  datatype Env<!W> = Env(
    setup: Setup,
    guards: Guards,
    fn: (string, string, W) -> (string, W),
    schedule: (nat, nat) -> seq<nat>,
    adapter: nat -> Reply,
    cancelled: nat -> bool,
    late: nat -> bool,
    estimate: seq<Message> -> nat,
    refusal: Session -> string)

  datatype St<W> = St(db: Session, world: W, polls: nat, attempts: nat)

  // ------------------------------------------------------- decisions on a call

  predicate NonIdempotent(k: Setup, call: Call) {
    call.name in k.tools && !k.tools[call.name].idempotent
  }

  predicate Gated(k: Setup, call: Call) {
    k.gated(call.name, call.args)
  }

  /** The reason the capability check refuses the tool, if it does. */
  function Denial(k: Setup, name: string): Option<string> {
    if name !in k.manifest.tools then Some("tool not permitted: " + name)
    else if name !in k.tools then Some("unknown tool: " + name)
    else if !ClassificationAllowed(k.manifest, k.tools[name].classification)
    then Some("classification exceeds ceiling: " + k.tools[name].classification)
    else None
  }

  /** The tool may be called: it is granted, it exists, and its classification is known and not above a
      known ceiling. */
  predicate Permitted(k: Setup, name: string) {
    && name in k.manifest.tools && name in k.tools
    && var level, ceiling := ClassificationRank(k.tools[name].classification), ClassificationRank(k.manifest.ceiling);
       level.Some? && ceiling.Some? && level.value <= ceiling.value
  }

  /** The check refuses exactly the calls that are not permitted. */
  lemma DenialIsExact(k: Setup, name: string)
    ensures Denial(k, name).None? <==> Permitted(k, name)
  {
  }

  predicate BatchEligible(k: Setup, call: Call) {
    && call.name in k.tools
    && k.tools[call.name].parallelSafe
    && k.tools[call.name].idempotent
    && !Gated(k, call)
    && Denial(k, call.name).None?
  }

  /** Length of the leading run of batch-eligible calls. */
  function EligibleRun(k: Setup, calls: seq<Call>): (n: nat)
    ensures n <= |calls|
    ensures forall i :: 0 <= i < n ==> BatchEligible(k, calls[i])
    ensures n < |calls| ==> !BatchEligible(k, calls[n])
  {
    if calls == [] || !BatchEligible(k, calls[0]) then 0 else 1 + EligibleRun(k, calls[1..])
  }

  function ApprovalIdOf(sid: string, call: Call): ApprovalId {
    ApprovalId(sid, call.name, call.args, call.id)
  }

  datatype Gate = Open | Undecided | Refused(approver: string) | Cleared(approver: string)

  function GateOf(k: Setup, db: Session, call: Call): Gate {
    var aid := ApprovalIdOf(db.sid, call);
    if !Gated(k, call) then Open
    else if aid !in db.approvals then Undecided
    else if db.approvals[aid].approved then Cleared(db.approvals[aid].approver)
    else Refused(db.approvals[aid].approver)
  }

  // -------------------------------------- the writes of each stretch of kernel code

  function NextKey(db: Session, call: Call): IdemKey {
    IdemKey(db.sid, |db.journal| + 1, call.name, call.args)
  }

  /** Saved results carry the seq of a journaled intent, so the next intent's key is new. */
  predicate FreshKeys(db: Session) {
    forall key :: key in db.results ==> key.seqNo <= |db.journal|
  }

  function IntentWrite(k: Setup, db: Session, call: Call): Write {
    Journal(ExecIntent(call.name, call.args,
                       call.name in k.tools && k.tools[call.name].idempotent, NextKey(db, call)))
  }

  const ERROR_PREFIX := "TOOL ERROR ["

  predicate IsToolError(result: string) {
    ERROR_PREFIX <= result
  }

  /** After the function returned (or the cache answered): save, confirm, record, fold. */
  function DoneWrites(call: Call, key: IdemKey, seqNo: nat, cached: bool, result: string, parallel: bool): seq<Write> {
    (if cached then [] else [PutResult(key, result)])
    + [Journal(ExecDone(seqNo, key, false)), Log(ToolExec(call.name, call.args, result, key, parallel))]
    + (if IsToolError(result) then [Log(ToolError(call.name, result))] else [])
    + [Post(ToolMsg(call.name, call.id, result))]
  }

  function CapDeniedWrites(call: Call, reason: string): seq<Write> {
    [Log(CapDenied(call.name, reason)),
     Post(ToolMsg(call.name, call.id, "DENIED by capability kernel: " + reason))]
  }

  function PauseWrites(sid: string, calls: seq<Call>): seq<Write>
    requires calls != []
  {
    var aid := ApprovalIdOf(sid, calls[0]);
    [Journal(Awaiting(aid, calls[0].name, calls[0].args, calls)), Log(ApprovalRequired(calls[0].name, aid))]
  }

  function RefusedWrites(sid: string, call: Call, approver: string): seq<Write> {
    [Log(ApprovalDeniedExec(call.name, ApprovalIdOf(sid, call), approver)),
     Post(ToolMsg(call.name, call.id, "DENIED by approver " + approver + ": action not authorized"))]
  }

  function ClearedWrite(sid: string, call: Call, approver: string): Write {
    Log(ApprovalGrantedExec(call.name, ApprovalIdOf(sid, call), approver))
  }

  function StopWrites(reason: string): seq<Write> {
    [Journal(Stopped(reason)), Log(StopLogged(reason))]
  }

  // ----------------------------------------------------------- executing calls

  /** `_execute_call` followed by `_add_tool_msg`. */
  function ExecCall<W>(e: Env<W>, st: St<W>, call: Call): St<W> {
    var denial := Denial(e.setup, call.name);
    if denial.Some? then
      st.(db := ApplyAll(st.db, CapDeniedWrites(call, denial.value)))
    else
      var key := NextKey(st.db, call);
      var db := Apply(st.db, IntentWrite(e.setup, st.db, call));
      if key in db.results then
        st.(db := ApplyAll(db, DoneWrites(call, key, |db.journal|, true, db.results[key], false)))
      else
        var out := e.fn(call.name, call.args, st.world);
        st.(db := ApplyAll(db, DoneWrites(call, key, |db.journal|, false, out.0, false)), world := out.1)
  }

  /** `_persist_precomputed` followed by `_add_tool_msg`. */
  function Persist(k: Setup, start: Session, call: Call, precomputed: string): Session {
    var key := NextKey(start, call);
    var db := Apply(start, IntentWrite(k, start, call));
    if key in db.results
    then ApplyAll(db, DoneWrites(call, key, |db.journal|, true, db.results[key], true))
    else ApplyAll(db, DoneWrites(call, key, |db.journal|, false, precomputed, true))
  }

  function PersistAll(k: Setup, db: Session, batch: seq<Call>, results: seq<string>): Session
    requires |batch| == |results|
    decreases |batch|
  {
    if batch == [] then db
    else PersistAll(k, Persist(k, db, batch[0], results[0]), batch[1..], results[1..])
  }

  /** Each of n batched functions runs once. */
  predicate IsSchedule(order: seq<nat>, n: nat) {
    && (forall i :: 0 <= i < |order| ==> order[i] < n)
    && (forall j :: 0 <= j < n ==> j in order)
    && (forall i, j :: 0 <= i < j < |order| ==> order[i] != order[j])
  }

  /** The pool runs the functions of every batch that way. */
  ghost predicate Scheduled<W>(e: Env<W>) {
    forall p, n :: IsSchedule(e.schedule(p, n), n)
  }

  /** The batch's functions, run in the scheduler's order; out.0[i] is call i's result. */
  function RunFns<W>(e: Env<W>, batch: seq<Call>, order: seq<nat>, world: W): (map<nat, string>, W)
    decreases |order|
  {
    if order == [] then (map[], world)
    else
      var n := |order| - 1;
      var before := RunFns(e, batch, order[..n], world);
      if order[n] < |batch| then
        var out := e.fn(batch[order[n]].name, batch[order[n]].args, before.1);
        (before.0[order[n] := out.0], out.1)
      else before
  }

  function Collect(m: map<nat, string>, n: nat): (r: seq<string>)
    ensures |r| == n
  {
    seq(n, i requires 0 <= i < n => if i in m then m[i] else "")
  }

  function RunBatch<W>(e: Env<W>, st: St<W>, batch: seq<Call>): St<W> {
    var out := RunFns(e, batch, e.schedule(st.polls, |batch|), st.world);
    st.(db := PersistAll(e.setup, st.db, batch, Collect(out.0, |batch|)), world := out.1)
  }

  /** Where `_execute_pending` stopped: at an approval gate, or at the end (or a cancel). */
  datatype Outcome<W> = Paused(st: St<W>, aid: ApprovalId) | Finished(st: St<W>)

  /** One call on the sequential path; Paused carries the calls still to do. */
  function HandleFirst<W>(e: Env<W>, st: St<W>, calls: seq<Call>): Outcome<W>
    requires calls != []
  {
    var call, sid := calls[0], st.db.sid;
    match GateOf(e.setup, st.db, call)
    case Undecided => Paused(st.(db := ApplyAll(st.db, PauseWrites(sid, calls))), ApprovalIdOf(sid, call))
    case Refused(who) => Finished(st.(db := ApplyAll(st.db, RefusedWrites(sid, call, who))))
    case Cleared(who) => Finished(ExecCall(e, st.(db := Apply(st.db, ClearedWrite(sid, call, who))), call))
    case Open => Finished(ExecCall(e, st, call))
  }

  /** One pass of the `while` loop: it stops there, or it has dealt with the first n calls. */
  datatype Pass<W> = Halt(outcome: Outcome<W>) | Went(st: St<W>, n: nat)

  function PassOver<W>(e: Env<W>, st: St<W>, calls: seq<Call>): (p: Pass<W>)
    requires calls != []
    ensures p.Went? ==> 1 <= p.n <= |calls|
  {
    var polled := st.(polls := st.polls + 1);
    if e.cancelled(st.polls) then
      Halt(Finished(polled.(db := Apply(st.db, Journal(Cancelled(calls[0].name))))))
    else
      var n := EligibleRun(e.setup, calls);
      if n >= 2 then Went(RunBatch(e, polled, calls[..n]), n)
      else
        var out := HandleFirst(e, polled, calls);
        if out.Paused? then Halt(out) else Went(out.st, 1)
  }

  /** `_execute_pending`: greedy batches of eligible calls, everything else one at a time. */
  function ExecPending<W>(e: Env<W>, st: St<W>, calls: seq<Call>): Outcome<W>
    decreases |calls|
  {
    if calls == [] then Finished(st)
    else
      match PassOver(e, st, calls)
      case Halt(outcome) => outcome
      case Went(st', n) => ExecPending(e, st', calls[n..])
  }

  // ------------------------------------------------------------------ the loop

  datatype RunResult = RunResult(text: string, iterations: nat, reason: string, pending: Option<ApprovalId>)

  function Tag(calls: seq<Emission>, response: nat): (tagged: seq<Call>)
    ensures |tagged| == |calls|
    ensures forall i :: 0 <= i < |calls| ==>
      tagged[i] == Call(calls[i].id, calls[i].name, calls[i].args, Ref(response, i))
  {
    seq(|calls|, i requires 0 <= i < |calls| =>
      Call(calls[i].id, calls[i].name, calls[i].args, Ref(response, i)))
  }

  /** Order-free identity of a response's calls (`_cycle_signature`). */
  type Signature = multiset<(string, string)>

  function CallKeys(calls: seq<Emission>): seq<(string, string)> {
    seq(|calls|, i requires 0 <= i < |calls| => (calls[i].name, calls[i].args))
  }

  function CycleSignature(calls: seq<Emission>): Signature {
    multiset(CallKeys(calls))
  }

  /** `cycle_history[-n:]`; with n = 0 that slice is the whole list. */
  function LastN<T>(s: seq<T>, n: nat): seq<T>
    requires n <= |s|
  {
    if n == 0 then s else s[|s| - n..]
  }

  predicate AllEqual<T(==)>(s: seq<T>) {
    s != [] && forall i :: 0 <= i < |s| ==> s[i] == s[0]
  }

  predicate LoopDetected(history: seq<Signature>, n: nat) {
    |history| >= n && AllEqual(LastN(history, n))
  }

  function EventTokens(ev: Event): nat {
    if ev.ModelCalled? then ev.inTokens + ev.outTokens else 0
  }

  /** `_total_tokens`: the adapter token counts recorded in the ledger. */
  function TotalTokens(ledger: seq<Event>): nat {
    if ledger == [] then 0
    else TotalTokens(ledger[..|ledger| - 1]) + EventTokens(ledger[|ledger| - 1])
  }

  /** `_model_call_with_retry` from the given attempt on; never answers TransientError. */
  function AskModel<W>(e: Env<W>, st: St<W>, iteration: nat, attempt: nat): (r: (St<W>, Reply))
    ensures !r.1.TransientError?
    decreases e.guards.modelRetries + 1 - attempt
  {
    if attempt > e.guards.modelRetries then (st, FatalError("no attempt"))
    else
      var reply := e.adapter(st.attempts);
      var asked := st.(attempts := st.attempts + 1);
      match reply
      case Response(_, _, _, _) => (asked, reply)
      case FatalError(_) => (asked, reply)
      case TransientError(error) =>
        if attempt >= e.guards.modelRetries then (asked, FatalError(error))
        else AskModel(e, asked.(db := Apply(asked.db, Log(ModelRetried(iteration, attempt, error)))),
                      iteration, attempt + 1)
  }

  function Stop<W>(st: St<W>, iteration: nat, reason: string): (St<W>, RunResult) {
    (st.(db := ApplyAll(st.db, StopWrites(reason))), RunResult("", iteration, reason, None))
  }

  function ToolNames(calls: seq<Emission>): seq<string> {
    seq(|calls|, i requires 0 <= i < |calls| => calls[i].name)
  }

  function AnsweredWrites(iteration: nat, seqNo: nat, r: Reply): seq<Write>
    requires r.Response?
  {
    [Journal(ModelDone(iteration, seqNo, |r.calls|)),
     Log(ModelCalled(iteration, r.text, ToolNames(r.calls), r.inTokens, r.outTokens))]
  }

  function AssistantText(text: string): seq<Write> {
    if text == "" then [] else [Post(AssistantMsg(text))]
  }

  function RefusalWrites(text: string, reason: string): seq<Write> {
    AssistantText(text) + [Post(UserMsg(reason)), Log(FinalizeRefused(reason))]
  }

  function FinalizeWrites(text: string, iteration: nat): seq<Write> {
    [Post(AssistantMsg(text)), Journal(Finalized(iteration)), Log(FinalizeLogged(iteration))]
  }

  /** What one iteration of the loop ends in: another iteration, or a result. */
  datatype Turn<W> = Next(st: St<W>, history: seq<Signature>) | Return(st: St<W>, result: RunResult)

  /** What a recorded response leads to. */
  datatype Verdict = Overspent | NotYet(reason: string) | Final | Repeating | Hand(calls: seq<Call>)

  function Judge<W>(e: Env<W>, st: St<W>, seqNo: nat, history: seq<Signature>, r: Reply): Verdict
    requires r.Response?
  {
    if TotalTokens(st.db.ledger) > e.guards.maxTotalTokens then Overspent
    else if r.calls == [] then
      var reason := e.refusal(st.db);
      if reason != "" then NotYet(reason) else Final
    else if LoopDetected(history + [CycleSignature(r.calls)], e.guards.cycleThreshold) then Repeating
    else Hand(Tag(r.calls, seqNo))
  }

  /** The body of the loop after a response has been recorded. */
  function Act<W>(e: Env<W>, st: St<W>, iteration: nat, seqNo: nat, history: seq<Signature>, r: Reply): Turn<W>
    requires r.Response?
  {
    match Judge(e, st, seqNo, history, r)
    case Overspent => var out := Stop(st, iteration, "budget"); Return(out.0, out.1)
    case NotYet(reason) => Next(st.(db := ApplyAll(st.db, RefusalWrites(r.text, reason))), history)
    case Final =>
      Return(st.(db := ApplyAll(st.db, FinalizeWrites(r.text, iteration))),
             RunResult(r.text, iteration, "completed", None))
    case Repeating => var out := Stop(st, iteration, "loop_detected"); Return(out.0, out.1)
    case Hand(calls) =>
      match ExecPending(e, st.(db := ApplyAll(st.db, AssistantText(r.text))), calls)
      case Paused(st', aid) => Return(st', RunResult("", iteration, "awaiting_approval", Some(aid)))
      case Finished(st') => Next(st', history + [CycleSignature(r.calls)])
  }

  /** The model call, journaled ahead: a recorded response, or the end of the run. */
  datatype Consultation<W> = Failed(st: St<W>, result: RunResult) | Heard(st: St<W>, seqNo: nat, reply: Reply)

  function Consulted<W>(e: Env<W>, st: St<W>, iteration: nat): (c: Consultation<W>)
    ensures c.Heard? ==> c.reply.Response?
  {
    var intended := st.(db := Apply(st.db, Journal(ModelIntent(iteration))));
    var seqNo := |intended.db.journal|;
    var asked := AskModel(e, intended, iteration, 1);
    if asked.1.FatalError? then
      var failed := asked.0.(db := Apply(asked.0.db, Log(ModelFailed(iteration, asked.1.error))));
      var out := Stop(failed, iteration, "model_error"); Failed(out.0, out.1)
    else
      Heard(asked.0.(db := ApplyAll(asked.0.db, AnsweredWrites(iteration, seqNo, asked.1))), seqNo, asked.1)
  }

  function Consult<W>(e: Env<W>, st: St<W>, iteration: nat, history: seq<Signature>): Turn<W> {
    match Consulted(e, st, iteration)
    case Failed(st', result) => Return(st', result)
    case Heard(st', seqNo, r) => Act(e, st', iteration, seqNo, history, r)
  }

  /** The guards at the head of an iteration: the reason to stop now, or "". */
  function GuardReason<W>(e: Env<W>, st: St<W>): string {
    if e.cancelled(st.polls) then "cancelled"
    else if e.estimate(st.db.messages) > e.guards.maxTokenEstimate then "budget"
    else if e.late(st.polls) then "wall_clock"
    else ""
  }

  /** The iteration up to the recorded response. */
  function Opening<W>(e: Env<W>, st: St<W>, iteration: nat): (c: Consultation<W>)
    ensures c.Heard? ==> c.reply.Response?
  {
    var polled := st.(polls := st.polls + 1);
    var reason := GuardReason(e, st);
    if reason != "" then
      var out := Stop(polled, iteration, reason); Failed(out.0, out.1)
    else
      Consulted(e, polled, iteration)
  }

  /** One iteration of the `for` loop. */
  function Iterate<W>(e: Env<W>, st: St<W>, iteration: nat, history: seq<Signature>): Turn<W> {
    match Opening(e, st, iteration)
    case Failed(st', result) => Return(st', result)
    case Heard(st', seqNo, r) => Act(e, st', iteration, seqNo, history, r)
  }

  lemma UnguardedIterates<W>(e: Env<W>, st: St<W>, iteration: nat, history: seq<Signature>)
    requires GuardReason(e, st) == ""
    ensures Iterate(e, st, iteration, history) == Consult(e, st.(polls := st.polls + 1), iteration, history)
  {
    hide Consulted, Act;
  }

  /** `_loop`, from the given iteration on. */
  function Loop<W>(e: Env<W>, st: St<W>, iteration: nat, history: seq<Signature>): (St<W>, RunResult)
    decreases e.guards.maxIterations + 1 - iteration
  {
    if iteration > e.guards.maxIterations then Stop(st, e.guards.maxIterations, "max_iterations")
    else
      match Iterate(e, st, iteration, history)
      case Next(st', history') => Loop(e, st', iteration + 1, history')
      case Return(st', result) => (st', result)
  }

  function RunWrites(text: string): seq<Write> {
    [Post(UserMsg(text)), Journal(Assemble)]
  }

  function Run<W>(e: Env<W>, st: St<W>, text: string): (St<W>, RunResult) {
    Loop(e, st.(db := ApplyAll(st.db, RunWrites(text))), 1, [])
  }

  function Resume<W>(e: Env<W>, st: St<W>): (St<W>, RunResult) {
    var tail := Tail(st.db);
    if tail.None? || !tail.value.Awaiting? then (st, RunResult("", 0, "resume_noop", None))
    else
      match ExecPending(e, st, tail.value.pending)
      case Paused(st', aid) => (st', RunResult("", 0, "awaiting_approval", Some(aid)))
      case Finished(st') => Loop(e, st', 1, [])
  }

  // ------------------------------------------------------------------ recovery

  datatype Status = Clean | ReissueModelCall | Resumed | SafeReissue | Quarantined

  /** What `recover` reports for the rows it finds. */
  function Classify(db: Session): Status {
    var tail := Tail(db);
    if tail.None? then Clean
    else match tail.value
      case ModelIntent(_) => ReissueModelCall
      case ExecIntent(_, _, idempotent, key) =>
        if key in db.results then Resumed else if idempotent then SafeReissue else Quarantined
      case _ => Clean
  }

  /** What `recover` writes, in order. */
  function RecoverWrites(db: Session): seq<Write> {
    match Classify(db)
    case Clean => []
    case ReissueModelCall => [Journal(Recovered("reissue_model_call"))]
    case Resumed => [Journal(ExecDone(|db.journal|, Tail(db).value.key, true))]
    case SafeReissue => [Journal(Recovered("safe_reissue"))]
    case Quarantined =>
      [Journal(NeedsReview(Tail(db).value.tool, Tail(db).value.key)), SetStatus("needs_review")]
  }

  /** A recover that completes adds at most one journal record and leaves nothing for a second
      one: it would report clean and write nothing, whatever the first reported. */
  lemma RecoverSettles(db: Session)
    ensures var after := ApplyAll(db, RecoverWrites(db));
      && Classify(after) == Clean && RecoverWrites(after) == []
      && db.journal <= after.journal && |after.journal| <= |db.journal| + 1
      && after.results == db.results && after.messages == db.messages && after.ledger == db.ledger
      && (Classify(db) == Quarantined ==> after.status == "needs_review")
      && (Classify(db) == Clean ==> after == db)
  {
    var ws := RecoverWrites(db);
    if |ws| == 2 {
      ApplyTwo(db, ws[0], ws[1]);
      assert ws == [ws[0], ws[1]];
    } else if |ws| == 1 {
      ApplyOne(db, ws[0]);
      assert ws == [ws[0]];
    }
  }
}
