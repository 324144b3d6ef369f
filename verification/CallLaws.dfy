/** What becomes of one call, row by row (scr/kernel.py, `_execute_pending` and below), told in terms of the
    session's tables. */
module CallLaws {
  import opened Basics
  import opened State
  import opened KernelSpec

  const NOT_AUTHORIZED := ": action not authorized"

  predicate FoldsAsError(result: string) {
    "TOOL ERROR [" <= result
  }

  /** The rows of an executed call: intent and confirmation journaled, the result saved under the intent's
      key, recorded (with a second event if it is an error) and told to the model. */
  function ExecutedRows(db: Session, call: Call, idempotent: bool, result: string, parallel: bool): Session {
    var n := |db.journal| + 1;
    var key := IdemKey(db.sid, n, call.name, call.args);
    var error := if FoldsAsError(result) then [ToolError(call.name, result)] else [];
    db.(journal := db.journal + [ExecIntent(call.name, call.args, idempotent, key), ExecDone(n, key, false)],
        results := db.results[key := result],
        ledger := db.ledger + [ToolExec(call.name, call.args, result, key, parallel)] + error,
        messages := db.messages + [ToolMsg(call.name, call.id, result)])
  }

  lemma ApplyCons(s: Session, w: Write, ws: seq<Write>)
    ensures ApplyAll(s, [w] + ws) == ApplyAll(Apply(s, w), ws)
  {
    assert ([w] + ws)[1..] == ws;
  }

  /** From the journaled intent on. */
  lemma DoneIsExecuted(db: Session, call: Call, idempotent: bool, result: string, parallel: bool)
    requires FreshKeys(db)
    ensures var n := |db.journal| + 1;
      var key := IdemKey(db.sid, n, call.name, call.args);
      var at := db.(journal := db.journal + [ExecIntent(call.name, call.args, idempotent, key)]);
      && key !in db.results
      && ApplyAll(at, DoneWrites(call, key, n, false, result, parallel))
      == ExecutedRows(db, call, idempotent, result, parallel)
  {
    hide ApplyAll, FreshKeys;
    var n := |db.journal| + 1;
    var key := IdemKey(db.sid, n, call.name, call.args);
    var at := db.(journal := db.journal + [ExecIntent(call.name, call.args, idempotent, key)]);
    NewKeyIsFresh(db, key);
    var put, done := PutResult(key, result), Journal(ExecDone(n, key, false));
    var log, err := Log(ToolExec(call.name, call.args, result, key, parallel)), Log(ToolError(call.name, result));
    var post := Post(ToolMsg(call.name, call.id, result));
    var ws := DoneWrites(call, key, n, false, result, parallel);
    var rest := if FoldsAsError(result) then [err, post] else [post];
    assert ws == [put] + ([done] + ([log] + rest));
    ApplyCons(at, put, [done] + ([log] + rest));
    var b := Apply(at, put);
    ApplyCons(b, done, [log] + rest);
    var c := Apply(b, done);
    ApplyCons(c, log, rest);
    var d := Apply(c, log);
    if FoldsAsError(result) {
      ApplyTwo(d, err, post);
    } else {
      ApplyOne(d, post);
    }
    assert c.journal == db.journal + [ExecIntent(call.name, call.args, idempotent, key), ExecDone(n, key, false)];
  }

  lemma NewKeyIsFresh(db: Session, key: IdemKey)
    requires FreshKeys(db) && key.seqNo > |db.journal|
    ensures key !in db.results
  {
  }

  /** A permitted call runs its function once, on the world as it finds it, and the model is told what the
      function returned, which is also what is saved and recorded. */
  lemma PermittedCallIsExecuted<W>(e: Env<W>, st: St<W>, call: Call)
    requires FreshKeys(st.db) && Permitted(e.setup, call.name)
    ensures var out := e.fn(call.name, call.args, st.world);
      ExecCall(e, st, call)
      == st.(db := ExecutedRows(st.db, call, e.setup.tools[call.name].idempotent, out.0, false), world := out.1)
  {
    hide ApplyAll, DoneWrites, FreshKeys, Permitted, Denial, ExecutedRows;
    DenialIsExact(e.setup, call.name);
    assert call.name in e.setup.tools by { PermittedExists(e.setup, call.name); }
    DoneIsExecuted(st.db, call, e.setup.tools[call.name].idempotent, e.fn(call.name, call.args, st.world).0, false);
  }

  lemma PermittedExists(k: Setup, name: string)
    requires Permitted(k, name)
    ensures name in k.tools
  {
  }

  /** A call that is not permitted starts nothing, journals nothing and saves nothing; it is recorded once
      and the model is told. */
  lemma ForbiddenCallIsRefused<W>(e: Env<W>, st: St<W>, call: Call) returns (reason: string)
    requires !Permitted(e.setup, call.name)
    ensures var told := ToolMsg(call.name, call.id, "DENIED by capability kernel: " + reason);
      ExecCall(e, st, call)
      == st.(db := st.db.(ledger := st.db.ledger + [CapDenied(call.name, reason)], messages := st.db.messages + [told]))
  {
    hide ApplyAll, Denial, Permitted;
    DenialIsExact(e.setup, call.name);
    reason := Denial(e.setup, call.name).value;
    var ws := CapDeniedWrites(call, reason);
    ApplyTwo(st.db, ws[0], ws[1]);
    assert ws == [ws[0], ws[1]];
  }

  /** A batched call leaves the same rows, marked parallel, for the result that its function returned. */
  lemma BatchedCallIsExecuted(k: Setup, db: Session, call: Call, result: string)
    requires FreshKeys(db)
    ensures Persist(k, db, call, result)
         == ExecutedRows(db, call, call.name in k.tools && k.tools[call.name].idempotent, result, true)
  {
    hide ApplyAll, DoneWrites, FreshKeys, ExecutedRows;
    DoneIsExecuted(db, call, call.name in k.tools && k.tools[call.name].idempotent, result, true);
  }

  // ------------------------------------------------------------------ at the gate

  predicate NeedsDecision(k: Setup, db: Session, call: Call) {
    k.gated(call.name, call.args) && ApprovalId(db.sid, call.name, call.args, call.id) !in db.approvals
  }

  predicate IsRefused(k: Setup, db: Session, call: Call) {
    var aid := ApprovalId(db.sid, call.name, call.args, call.id);
    k.gated(call.name, call.args) && aid in db.approvals && !db.approvals[aid].approved
  }

  /** A gated call without a decision stops the pass: it and all calls after it are journaled for a resume,
      the request is recorded, and nothing else happens. */
  lemma UndecidedCallPauses<W>(e: Env<W>, st: St<W>, calls: seq<Call>)
    requires calls != [] && NeedsDecision(e.setup, st.db, calls[0])
    ensures var call, aid := calls[0], ApprovalId(st.db.sid, calls[0].name, calls[0].args, calls[0].id);
      HandleFirst(e, st, calls)
      == Paused(st.(db := st.db.(journal := st.db.journal + [Awaiting(aid, call.name, call.args, calls)],
                                 ledger := st.db.ledger + [ApprovalRequired(call.name, aid)])), aid)
  {
    hide ApplyAll, ExecCall;
    var ws := PauseWrites(st.db.sid, calls);
    ApplyTwo(st.db, ws[0], ws[1]);
    assert ws == [ws[0], ws[1]];
  }

  /** A denied one is not executed: the model is told who denied it. */
  lemma RefusedCallIsTold<W>(e: Env<W>, st: St<W>, calls: seq<Call>)
    requires calls != [] && IsRefused(e.setup, st.db, calls[0])
    ensures var call, aid := calls[0], ApprovalId(st.db.sid, calls[0].name, calls[0].args, calls[0].id);
      var who := st.db.approvals[aid].approver;
      var told := ToolMsg(call.name, call.id, "DENIED by approver " + who + NOT_AUTHORIZED);
      HandleFirst(e, st, calls)
      == Finished(st.(db := st.db.(ledger := st.db.ledger + [ApprovalDeniedExec(call.name, aid, who)],
                                   messages := st.db.messages + [told])))
  {
    hide ApplyAll, ExecCall;
    var aid := ApprovalId(st.db.sid, calls[0].name, calls[0].args, calls[0].id);
    var ws := RefusedWrites(st.db.sid, calls[0], st.db.approvals[aid].approver);
    ApplyTwo(st.db, ws[0], ws[1]);
    assert ws == [ws[0], ws[1]];
  }

  /** Any other call is executed; an approval is recorded first. */
  lemma OtherCallsAreExecuted<W>(e: Env<W>, st: St<W>, calls: seq<Call>)
    requires calls != [] && !NeedsDecision(e.setup, st.db, calls[0]) && !IsRefused(e.setup, st.db, calls[0])
    ensures var call, aid := calls[0], ApprovalId(st.db.sid, calls[0].name, calls[0].args, calls[0].id);
      var granted := if e.setup.gated(call.name, call.args)
                     then [ApprovalGrantedExec(call.name, aid, st.db.approvals[aid].approver)] else [];
      HandleFirst(e, st, calls)
      == Finished(ExecCall(e, st.(db := st.db.(ledger := st.db.ledger + granted)), call))
  {
    hide ExecCall;
    if !e.setup.gated(calls[0].name, calls[0].args) {
      assert st.db.ledger + [] == st.db.ledger;
    }
  }

  /** A call joins a batch only if its tool is declared parallel-safe and idempotent, it needs no approval
      and it is permitted. */
  lemma BatchesAreHarmless(k: Setup, call: Call)
    ensures BatchEligible(k, call) <==>
      && Permitted(k, call.name) && !k.gated(call.name, call.args)
      && k.tools[call.name].parallelSafe && k.tools[call.name].idempotent
  {
    hide Denial;
    DenialIsExact(k, call.name);
  }

  // ------------------------------------------------------------------ one pass of the loop

  /** A cancel seen before a call stops the pass there: the call is neither executed nor answered. */
  lemma CancelStopsThePass<W>(e: Env<W>, st: St<W>, calls: seq<Call>)
    requires calls != [] && e.cancelled(st.polls)
    ensures PassOver(e, st, calls)
         == Halt(Finished(st.(polls := st.polls + 1,
                              db := st.db.(journal := st.db.journal + [Cancelled(calls[0].name)]))))
  {
  }

  /** Otherwise two or more leading calls that may be batched are, as many as there are: their functions run
      first, and then each leaves its rows in turn. */
  lemma LeadingCallsAreBatched<W>(e: Env<W>, st: St<W>, calls: seq<Call>)
    requires |calls| >= 2 && !e.cancelled(st.polls)
    requires BatchEligible(e.setup, calls[0]) && BatchEligible(e.setup, calls[1])
    ensures var p := PassOver(e, st, calls);
      && p.Went? && 2 <= p.n <= |calls|
      && (forall i :: 0 <= i < p.n ==> BatchEligible(e.setup, calls[i]))
      && (p.n < |calls| ==> !BatchEligible(e.setup, calls[p.n]))
      && var out := RunFns(e, calls[..p.n], e.schedule(st.polls + 1, p.n), st.world);
         && p.st.world == out.1
         && p.st.db == PersistAll(e.setup, st.db, calls[..p.n], Collect(out.0, p.n))
  {
    hide BatchEligible, RunFns, PersistAll, HandleFirst;
    var n := EligibleRun(e.setup, calls);
    assert n >= 2;
  }

  // ------------------------------------------------------------------ decisions

  /** The first decision on an action takes effect: the gate is then open or closed as decided. */
  lemma DecisionsTakeEffect(k: Setup, db: Session, call: Call, d: Decision)
    requires NeedsDecision(k, db, call)
    ensures var aid := ApprovalId(db.sid, call.name, call.args, call.id);
      var after := Apply(db, PutApproval(aid, d));
      && after == db.(approvals := db.approvals[aid := d])
      && !NeedsDecision(k, after, call) && (IsRefused(k, after, call) <==> !d.approved)
  {
  }
}
