/** Each call is answered once, in order, and with what became of it (scr/kernel.py, `_execute_pending` and
    `resume`), over any number of pauses, decisions and resumes. */
module Answering {
  import opened Basics
  import opened State
  import opened KernelSpec
  import opened CallLaws
  import opened Pausing

  // ------------------------------------------------------------------ rows only grow

  /** Later rows: nothing journaled, said, saved or decided is lost or changed. */
  predicate Grows(a: Session, b: Session) {
    && a.sid == b.sid && a.journal <= b.journal && a.messages <= b.messages
    && (forall key :: key in a.results ==> key in b.results && b.results[key] == a.results[key])
    && (forall aid :: aid in a.approvals ==> aid in b.approvals && b.approvals[aid] == a.approvals[aid])
  }

  lemma GrowsTransitive(a: Session, b: Session, c: Session)
    requires Grows(a, b) && Grows(b, c)
    ensures Grows(a, c)
  {
  }

  lemma ApplyGrows(s: Session, w: Write)
    ensures Grows(s, Apply(s, w))
  {
  }

  lemma {:induction false} ApplyAllGrows(s: Session, ws: seq<Write>)
    ensures Grows(s, ApplyAll(s, ws))
    decreases |ws|
  {
    hide Grows, Apply;
    if ws == [] {
      GrowsItself(s);
    } else {
      ApplyGrows(s, ws[0]);
      ApplyAllGrows(Apply(s, ws[0]), ws[1..]);
      GrowsTransitive(s, Apply(s, ws[0]), ApplyAll(s, ws));
    }
  }

  lemma GrowsItself(s: Session)
    ensures Grows(s, s)
  {
  }

  // ------------------------------------------------------------------ answers

  /** The result saved under the key of an intent that this session journaled for this tool and these
      arguments. */
  predicate SavedFor(db: Session, call: Call, key: IdemKey, text: string) {
    && key in db.results && db.results[key] == text
    && key.sid == db.sid && key.tool == call.name && key.args == call.args
    && 1 <= key.seqNo <= |db.journal|
    && var rec := db.journal[key.seqNo - 1];
       rec.ExecIntent? && rec.tool == call.name && rec.args == call.args && rec.key == key
  }

  /** The text a call is answered with: who denied it, if it was denied at the gate; that it is not
      permitted; or else its saved result. */
  ghost predicate AnsweredWith(k: Setup, db: Session, call: Call, text: string) {
    && !NeedsDecision(k, db, call)
    && if IsRefused(k, db, call) then
         var aid := ApprovalId(db.sid, call.name, call.args, call.id);
         text == "DENIED by approver " + db.approvals[aid].approver + NOT_AUTHORIZED
       else if !Permitted(k, call.name) then
         exists reason :: text == "DENIED by capability kernel: " + reason
       else
         exists key :: SavedFor(db, call, key, text)
  }

  ghost predicate AnswersCall(k: Setup, db: Session, m: Message, call: Call) {
    m.ToolMsg? && m.tool == call.name && m.id == call.id && AnsweredWith(k, db, call, m.result)
  }

  /** From rows a to rows b: one tool message per call, in the calls' order, and no other message. */
  ghost predicate Answers(k: Setup, a: Session, b: Session, calls: seq<Call>) {
    && Grows(a, b) && |b.messages| == |a.messages| + |calls|
    && forall i :: 0 <= i < |calls| ==> AnswersCall(k, b, b.messages[|a.messages| + i], calls[i])
  }

  lemma AnswerStays(k: Setup, a: Session, b: Session, m: Message, call: Call)
    requires Grows(a, b) && AnswersCall(k, a, m, call)
    ensures AnswersCall(k, b, m, call)
  {
    hide Permitted;
    if !IsRefused(k, a, call) && Permitted(k, call.name) {
      var key :| SavedFor(a, call, key, m.result);
      assert SavedFor(b, call, key, m.result);
    }
  }

  lemma AnswersConcat(k: Setup, a: Session, m: Session, b: Session, x: seq<Call>, y: seq<Call>)
    requires Answers(k, a, m, x) && Answers(k, m, b, y)
    ensures Answers(k, a, b, x + y)
  {
    hide AnswersCall;
    GrowsTransitive(a, m, b);
    forall i | 0 <= i < |x + y|
      ensures AnswersCall(k, b, b.messages[|a.messages| + i], (x + y)[i])
    {
      if i < |x| {
        AnswerStays(k, m, b, m.messages[|a.messages| + i], x[i]);
      } else {
        assert AnswersCall(k, b, b.messages[|m.messages| + (i - |x|)], y[i - |x|]);
      }
    }
  }

  lemma AnswersNone(k: Setup, a: Session, b: Session)
    requires Grows(a, b) && a.messages == b.messages
    ensures Answers(k, a, b, [])
  {
  }

  lemma AnswersOne(k: Setup, a: Session, b: Session, call: Call, m: Message)
    requires Grows(a, b) && b.messages == a.messages + [m] && AnswersCall(k, b, m, call)
    ensures Answers(k, a, b, [call])
  {
    hide AnswersCall, Grows;
  }

  // ------------------------------------------------------------------ one call

  /** Saved (now or before), confirmed, recorded and told. */
  lemma DoneAnswers(k: Setup, db: Session, call: Call, idempotent: bool, cached: bool, result: string, parallel: bool)
    requires Permitted(k, call.name) && !NeedsDecision(k, db, call) && !IsRefused(k, db, call)
    requires var key := NextKey(db, call);
      (cached <==> key in db.results) && (cached ==> db.results[key] == result)
    ensures var key := NextKey(db, call);
      var at := Apply(db, Journal(ExecIntent(call.name, call.args, idempotent, key)));
      Answers(k, db, ApplyAll(at, DoneWrites(call, key, |at.journal|, cached, result, parallel)), [call])
  {
    hide ApplyAll, Permitted, Grows, NeedsDecision, IsRefused, Answers;
    var key := NextKey(db, call);
    var intent := Journal(ExecIntent(call.name, call.args, idempotent, key));
    var at := Apply(db, intent);
    var n := |at.journal|;
    var ws := DoneWrites(call, key, n, cached, result, parallel);
    var after := ApplyAll(at, ws);
    ApplyGrows(db, intent);
    ApplyAllGrows(at, ws);
    GrowsTransitive(db, at, after);
    DoneTables(at, call, key, n, cached, result, parallel);
    SameDecision(k, db, after, call);
    IntentStays(at, after);
    assert SavedFor(after, call, key, result);
    AnswersOne(k, db, after, call, ToolMsg(call.name, call.id, result));
  }

  lemma IntentStays(at: Session, after: Session)
    requires Grows(at, after) && at.journal != []
    ensures |at.journal| <= |after.journal| && after.journal[|at.journal| - 1] == at.journal[|at.journal| - 1]
    ensures after.sid == at.sid
  {
  }

  lemma DoneTables(at: Session, call: Call, key: IdemKey, n: nat, cached: bool, result: string, parallel: bool)
    requires (cached <==> key in at.results) && (cached ==> at.results[key] == result)
    ensures var after := ApplyAll(at, DoneWrites(call, key, n, cached, result, parallel));
      && after.messages == at.messages + [ToolMsg(call.name, call.id, result)]
      && key in after.results && after.results[key] == result && after.approvals == at.approvals
  {
    hide ApplyAll, IsToolError;
    var put, done := PutResult(key, result), Journal(ExecDone(n, key, false));
    var log, err := Log(ToolExec(call.name, call.args, result, key, parallel)), Log(ToolError(call.name, result));
    var post := Post(ToolMsg(call.name, call.id, result));
    var error := if IsToolError(result) then [err] else [];
    var rest := [done] + ([log] + (error + [post]));
    var ws := DoneWrites(call, key, n, cached, result, parallel);
    assert ws == (if cached then rest else [put] + rest);
    var b := if cached then at else Apply(at, put);
    if !cached {
      ApplyCons(at, put, rest);
    }
    ApplyCons(b, done, [log] + (error + [post]));
    var d := Apply(Apply(b, done), log);
    ApplyCons(Apply(b, done), log, error + [post]);
    if IsToolError(result) {
      assert error + [post] == [err, post];
      ApplyTwo(d, err, post);
    } else {
      assert error + [post] == [post];
      ApplyOne(d, post);
    }
  }

  lemma SameDecision(k: Setup, a: Session, b: Session, call: Call)
    requires Grows(a, b) && !NeedsDecision(k, a, call)
    ensures !NeedsDecision(k, b, call) && IsRefused(k, a, call) == IsRefused(k, b, call)
  {
  }

  lemma ExecCallAnswers<W>(e: Env<W>, st: St<W>, call: Call)
    requires !NeedsDecision(e.setup, st.db, call) && !IsRefused(e.setup, st.db, call)
    ensures Answers(e.setup, st.db, ExecCall(e, st, call).db, [call])
  {
    hide ApplyAll, Permitted, Denial, DoneWrites, Answers, NeedsDecision, IsRefused;
    DenialIsExact(e.setup, call.name);
    if !Permitted(e.setup, call.name) {
      var reason := ForbiddenCallIsRefused(e, st, call);
      ForbiddenAnswers(e.setup, st.db, ExecCall(e, st, call).db, call, reason);
    } else {
      var key := NextKey(st.db, call);
      var cached := key in st.db.results;
      var result := if cached then st.db.results[key] else e.fn(call.name, call.args, st.world).0;
      PermittedExists(e.setup, call.name);
      DoneAnswers(e.setup, st.db, call, e.setup.tools[call.name].idempotent, cached, result, false);
    }
  }

  lemma ForbiddenAnswers(k: Setup, a: Session, b: Session, call: Call, reason: string)
    requires !NeedsDecision(k, a, call) && !IsRefused(k, a, call) && !Permitted(k, call.name)
    requires var told := ToolMsg(call.name, call.id, "DENIED by capability kernel: " + reason);
      b == a.(ledger := b.ledger, messages := a.messages + [told])
    ensures Answers(k, a, b, [call])
  {
    hide Permitted;
    var told := ToolMsg(call.name, call.id, "DENIED by capability kernel: " + reason);
    AnswersOne(k, a, b, call, told);
  }

  lemma HandleFirstAnswers<W>(e: Env<W>, st: St<W>, calls: seq<Call>)
    requires calls != [] && HandleFirst(e, st, calls).Finished?
    ensures Answers(e.setup, st.db, HandleFirst(e, st, calls).st.db, [calls[0]])
  {
    hide HandleFirst, ExecCall, Answers, Permitted;
    var k, call := e.setup, calls[0];
    if NeedsDecision(k, st.db, call) {
      UndecidedCallPauses(e, st, calls);
    } else if IsRefused(k, st.db, call) {
      RefusedCallIsTold(e, st, calls);
      var aid := ApprovalId(st.db.sid, call.name, call.args, call.id);
      var told := ToolMsg(call.name, call.id, "DENIED by approver " + st.db.approvals[aid].approver + NOT_AUTHORIZED);
      AnswersOne(k, st.db, HandleFirst(e, st, calls).st.db, call, told);
    } else {
      OtherCallsAreExecuted(e, st, calls);
      var aid := ApprovalId(st.db.sid, call.name, call.args, call.id);
      var granted := if k.gated(call.name, call.args)
                     then [ApprovalGrantedExec(call.name, aid, st.db.approvals[aid].approver)] else [];
      var at := st.(db := st.db.(ledger := st.db.ledger + granted));
      ExecCallAnswers(e, at, call);
      LedgerIsNotRead(k, st.db, at.db, ExecCall(e, at, call).db, [call]);
    }
  }

  lemma LedgerIsNotRead(k: Setup, a: Session, a': Session, b: Session, calls: seq<Call>)
    requires a' == a.(ledger := a'.ledger) && Answers(k, a', b, calls)
    ensures Answers(k, a, b, calls)
  {
    hide AnswersCall;
  }

  // ------------------------------------------------------------------ a batch

  lemma EligibleIsOpen(k: Setup, db: Session, call: Call)
    requires BatchEligible(k, call)
    ensures Permitted(k, call.name) && !NeedsDecision(k, db, call) && !IsRefused(k, db, call)
  {
    hide Permitted;
    BatchesAreHarmless(k, call);
  }

  lemma PersistAnswers(k: Setup, db: Session, call: Call, precomputed: string)
    requires BatchEligible(k, call)
    ensures Answers(k, db, Persist(k, db, call, precomputed), [call])
  {
    hide ApplyAll, DoneWrites, Answers, BatchEligible, Permitted;
    EligibleIsOpen(k, db, call);
    var key := NextKey(db, call);
    var cached := key in db.results;
    var idempotent := call.name in k.tools && k.tools[call.name].idempotent;
    DoneAnswers(k, db, call, idempotent, cached, if cached then db.results[key] else precomputed, true);
  }

  lemma {:induction false} PersistAllAnswers(k: Setup, db: Session, batch: seq<Call>, results: seq<string>)
    requires |batch| == |results| && forall i :: 0 <= i < |batch| ==> BatchEligible(k, batch[i])
    ensures Answers(k, db, PersistAll(k, db, batch, results), batch)
    decreases |batch|
  {
    hide Persist, Answers, BatchEligible;
    if batch == [] {
      GrowsItself(db);
      AnswersNone(k, db, db);
    } else {
      PersistAnswers(k, db, batch[0], results[0]);
      var mid := Persist(k, db, batch[0], results[0]);
      PersistAllAnswers(k, mid, batch[1..], results[1..]);
      AnswersConcat(k, db, mid, PersistAll(k, db, batch, results), [batch[0]], batch[1..]);
      assert [batch[0]] + batch[1..] == batch;
    }
  }

  // ------------------------------------------------------------------ all the calls

  /** Where the handling of calls stopped: the first n are answered, once each and in order; then the
      rest waits in the journal for a resume, or a cancel was recorded, or there is no rest. */
  ghost predicate StoppedAt<W>(k: Setup, a: Session, out: Outcome<W>, calls: seq<Call>, n: nat) {
    && n <= |calls| && Answers(k, a, out.st.db, calls[..n])
    && (out.Paused? ==> n < |calls| && WaitsIn(out.st.db, calls[n..]))
    && (out.Finished? && n < |calls| ==> Tail(out.st.db) == Some(Cancelled(calls[n].name)))
  }

  /** A later stretch that starts at call m continues an earlier one. */
  lemma StoppedLater<W>(k: Setup, a: Session, mid: Session, out: Outcome<W>, calls: seq<Call>, m: nat, n: nat)
    requires m <= |calls| && Answers(k, a, mid, calls[..m]) && StoppedAt(k, mid, out, calls[m..], n)
    ensures m + n <= |calls| && StoppedAt(k, a, out, calls, m + n)
  {
    hide Answers;
    AnswersConcat(k, a, mid, out.st.db, calls[..m], calls[m..][..n]);
    assert calls[..m] + calls[m..][..n] == calls[..m + n];
    assert calls[m..][n..] == calls[m + n..];
  }

  lemma PausedAt<W>(e: Env<W>, st: St<W>, calls: seq<Call>)
    requires calls != [] && HandleFirst(e, st, calls).Paused?
    ensures StoppedAt(e.setup, st.db, HandleFirst(e, st, calls), calls, 0)
  {
    hide HandleFirst, ExecCall;
    if NeedsDecision(e.setup, st.db, calls[0]) {
      UndecidedCallPauses(e, st, calls);
    } else if IsRefused(e.setup, st.db, calls[0]) {
      RefusedCallIsTold(e, st, calls);
    } else {
      OtherCallsAreExecuted(e, st, calls);
    }
  }

  lemma CancelledAt<W>(k: Setup, st: St<W>, calls: seq<Call>)
    requires calls != []
    ensures StoppedAt(k, st.db, Finished(st.(db := Apply(st.db, Journal(Cancelled(calls[0].name))))), calls, 0)
  {
  }

  lemma PassAnswers<W>(e: Env<W>, st: St<W>, calls: seq<Call>)
    requires calls != []
    ensures var p := PassOver(e, st, calls);
      if p.Went? then Answers(e.setup, st.db, p.st.db, calls[..p.n])
      else StoppedAt(e.setup, st.db, p.outcome, calls, 0) && (p.outcome.Finished? ==> e.cancelled(st.polls))
  {
    hide HandleFirst, PersistAll, BatchEligible, RunFns, Answers, StoppedAt, Apply;
    var polled, n := st.(polls := st.polls + 1), EligibleRun(e.setup, calls);
    if e.cancelled(st.polls) {
      CancelledAt(e.setup, polled, calls);
    } else if n >= 2 {
      var out := RunFns(e, calls[..n], e.schedule(polled.polls, n), st.world);
      PersistAllAnswers(e.setup, st.db, calls[..n], Collect(out.0, n));
    } else {
      var out := HandleFirst(e, polled, calls);
      if out.Finished? {
        HandleFirstAnswers(e, polled, calls);
        assert [calls[0]] == calls[..1];
      } else {
        PausedAt(e, polled, calls);
      }
    }
  }

  lemma {:induction false} ExecPendingAnswers<W>(e: Env<W>, st: St<W>, calls: seq<Call>) returns (n: nat)
    ensures StoppedAt(e.setup, st.db, ExecPending(e, st, calls), calls, n)
    ensures ExecPending(e, st, calls).Finished? && n < |calls| ==> exists p :: e.cancelled(p)
    decreases |calls|
  {
    hide PassOver, Answers;
    if calls == [] {
      n := 0;
      GrowsItself(st.db);
      AnswersNone(e.setup, st.db, st.db);
    } else {
      PassAnswers(e, st, calls);
      var p := PassOver(e, st, calls);
      if p.Went? {
        var m := ExecPendingAnswers(e, p.st, calls[p.n..]);
        StoppedLater(e.setup, st.db, p.st.db, ExecPending(e, p.st, calls[p.n..]), calls, p.n, m);
        n := p.n + m;
      } else {
        n := 0;
      }
    }
  }

  /** Decisions answer nothing; what was answered stays so. */
  lemma DecisionsAnswerNothing(k: Setup, a: Session, mid: Session, rulings: seq<Ruling>, calls: seq<Call>)
    requires Answers(k, a, mid, calls)
    ensures Answers(k, a, ApplyAll(mid, DecideWrites(rulings)), calls)
  {
    hide Answers, Grows, ApplyAll, Work, DecidedIn;
    var b := ApplyAll(mid, DecideWrites(rulings));
    ApplyAllGrows(mid, DecideWrites(rulings));
    DecisionsMatch(mid, rulings);
    AnswersNone(k, mid, b);
    AnswersConcat(k, a, mid, b, calls, []);
    assert calls + [] == calls;
  }

  /** Over any number of pauses, decisions and resumes, with any tools, any scheduler and any cancels: a
      prefix of the calls has been answered, each call once, in order, and with what became of it. If the
      rounds finished without a cancel that is all of them; if they are paused, the others wait in the
      journal for the next resume. */
  lemma {:induction false} EachCallAnsweredOnce<W>(e: Env<W>, st: St<W>, calls: seq<Call>, rounds: seq<seq<Ruling>>)
    returns (n: nat)
    ensures StoppedAt(e.setup, st.db, Rounds(e, st, calls, rounds), calls, n)
    ensures Rounds(e, st, calls, rounds).Finished? && (forall p :: !e.cancelled(p)) ==> n == |calls|
    decreases |rounds|
  {
    hide ExecPending, Answers, Work, DecidedIn;
    var out := ExecPending(e, st, calls);
    n := ExecPendingAnswers(e, st, calls);
    if out.Paused? && rounds != [] {
      DecisionsMatch(out.st.db, rounds[0]);
      DecisionsAnswerNothing(e.setup, st.db, out.st.db, rounds[0], calls[..n]);
      var db := ApplyAll(out.st.db, DecideWrites(rounds[0]));
      var next := out.st.(db := db);
      var m := EachCallAnsweredOnce(e, next, calls[n..], rounds[1..]);
      StoppedLater(e.setup, st.db, db, Rounds(e, next, calls[n..], rounds[1..]), calls, n, m);
      n := n + m;
    }
  }
}
