/** What one iteration of the loop does, and what a whole loop's end means (scr/kernel.py, `_loop`), told in
    terms of the session's tables and of the oracles. */
module LoopLaws {
  import opened Basics
  import opened Capability
  import opened State
  import opened KernelSpec
  import opened LoopBounds

  function StoppedRows(db: Session, reason: string): Session {
    db.(journal := db.journal + [Stopped(reason)], ledger := db.ledger + [StopLogged(reason)])
  }

  function FinalRows(db: Session, text: string, iteration: nat): Session {
    db.(messages := db.messages + [AssistantMsg(text)],
        journal := db.journal + [Finalized(iteration)],
        ledger := db.ledger + [FinalizeLogged(iteration)])
  }

  /** What the assistant said, if anything, is kept. */
  function Said(db: Session, text: string): Session {
    if text == "" then db else db.(messages := db.messages + [AssistantMsg(text)])
  }

  lemma StopIsRows(db: Session, reason: string)
    ensures ApplyAll(db, StopWrites(reason)) == StoppedRows(db, reason)
  {
    var ws := StopWrites(reason);
    ApplyTwo(db, ws[0], ws[1]);
    assert ws == [ws[0], ws[1]];
  }

  lemma FinalIsRows(db: Session, text: string, iteration: nat)
    ensures ApplyAll(db, FinalizeWrites(text, iteration)) == FinalRows(db, text, iteration)
  {
    var ws := FinalizeWrites(text, iteration);
    ApplyThree(db, ws[0], ws[1], ws[2]);
    assert ws == [ws[0], ws[1], ws[2]];
  }

  lemma SaidIsRows(db: Session, text: string)
    ensures ApplyAll(db, AssistantText(text)) == Said(db, text)
  {
    if text != "" {
      ApplyOne(db, Post(AssistantMsg(text)));
    }
  }

  lemma RefusalIsRows(db: Session, text: string, reason: string)
    ensures ApplyAll(db, RefusalWrites(text, reason))
         == Said(db, text).(messages := Said(db, text).messages + [UserMsg(reason)],
                            ledger := db.ledger + [FinalizeRefused(reason)])
  {
    hide ApplyAll;
    ApplyAllConcat(db, AssistantText(text), [Post(UserMsg(reason)), Log(FinalizeRefused(reason))]);
    SaidIsRows(db, text);
    ApplyTwo(Said(db, text), Post(UserMsg(reason)), Log(FinalizeRefused(reason)));
  }

  // ------------------------------------------------------------ the head of an iteration

  /** The reason to stop before asking the model: a cancel, then the context's size, then the clock. */
  function StopReason<W>(e: Env<W>, st: St<W>): Option<string> {
    if e.cancelled(st.polls) then Some("cancelled")
    else if e.estimate(st.db.messages) > e.guards.maxTokenEstimate then Some("budget")
    else if e.late(st.polls) then Some("wall_clock")
    else None
  }

  /** With such a reason the turn asks no model, runs nothing and ends the loop with that reason. */
  lemma GuardedTurnStops<W>(e: Env<W>, st: St<W>, iteration: nat, history: seq<Signature>)
    requires StopReason(e, st).Some?
    ensures var reason := StopReason(e, st).value;
      Iterate(e, st, iteration, history)
      == Return(st.(polls := st.polls + 1, db := StoppedRows(st.db, reason)), RunResult("", iteration, reason, None))
  {
    hide ApplyAll, Consulted, Act, StopWrites;
    StopIsRows(st.db, StopReason(e, st).value);
  }

  /** The events of n retries, from this attempt on. */
  function Retries<W>(e: Env<W>, first: nat, iteration: nat, attempt: nat, n: nat): seq<Event>
    decreases n
  {
    if n == 0 then []
    else
      var r := e.adapter(first);
      [ModelRetried(iteration, attempt, if r.TransientError? then r.error else "")]
      + Retries(e, first + 1, iteration, attempt + 1, n - 1)
  }

  /** These replies of the adapter are transient errors. */
  predicate AllTransient<W>(e: Env<W>, from: nat, upto: nat) {
    forall a :: from <= a < upto ==> e.adapter(a).TransientError?
  }

  /** The model is asked again exactly while it answers with a transient error and attempts are left: n more
      times, each logged. What comes back is the last reply, a last transient error counting as fatal. */
  lemma {:induction false} AskingEnds<W>(e: Env<W>, st: St<W>, iteration: nat, attempt: nat) returns (n: nat)
    requires 1 <= attempt <= e.guards.modelRetries
    ensures attempt + n <= e.guards.modelRetries && AllTransient(e, st.attempts, st.attempts + n)
    ensures e.adapter(st.attempts + n).TransientError? ==> attempt + n == e.guards.modelRetries
    ensures var last := e.adapter(st.attempts + n);
      AskModel(e, st, iteration, attempt)
      == (st.(attempts := st.attempts + n + 1,
              db := st.db.(ledger := st.db.ledger + Retries(e, st.attempts, iteration, attempt, n))),
          if last.TransientError? then FatalError(last.error) else last)
    decreases e.guards.modelRetries - attempt
  {
    var reply := e.adapter(st.attempts);
    if reply.TransientError? && attempt < e.guards.modelRetries {
      var asked := st.(attempts := st.attempts + 1,
                       db := Apply(st.db, Log(ModelRetried(iteration, attempt, reply.error))));
      var m := AskingEnds(e, asked, iteration, attempt + 1);
      n := m + 1;
      var ev := ModelRetried(iteration, attempt, reply.error);
      var rest := Retries(e, asked.attempts, iteration, attempt + 1, m);
      assert (st.db.ledger + [ev]) + rest == st.db.ledger + ([ev] + rest);
      assert Retries(e, st.attempts, iteration, attempt, n) == [ev] + rest;
    } else {
      n := 0;
      assert Retries(e, st.attempts, iteration, attempt, 0) == [];
      assert st.db.ledger + [] == st.db.ledger;
    }
  }

  function EmittedNames(calls: seq<Emission>): seq<string> {
    seq(|calls|, i requires 0 <= i < |calls| => calls[i].name)
  }

  /** The intent is journaled first. A response is recorded with its text, its calls and the tokens it cost;
      any other end of the asking is recorded as a model error and ends the loop. */
  lemma ModelIsConsulted<W>(e: Env<W>, st: St<W>, iteration: nat) returns (n: nat)
    requires e.guards.modelRetries >= 1
    ensures AllTransient(e, st.attempts, st.attempts + n) && n < e.guards.modelRetries
    ensures e.adapter(st.attempts + n).TransientError? ==> n + 1 == e.guards.modelRetries
    ensures var last, seqNo := e.adapter(st.attempts + n), |st.db.journal| + 1;
      var asked := st.(attempts := st.attempts + n + 1,
                       db := st.db.(journal := st.db.journal + [ModelIntent(iteration)],
                                    ledger := st.db.ledger + Retries(e, st.attempts, iteration, 1, n)));
      if last.Response? then
        var recorded := ModelCalled(iteration, last.text, EmittedNames(last.calls), last.inTokens, last.outTokens);
        Consulted(e, st, iteration)
        == Heard(asked.(db := asked.db.(journal := asked.db.journal + [ModelDone(iteration, seqNo, |last.calls|)],
                                        ledger := asked.db.ledger + [recorded])), seqNo, last)
      else
        var failed := asked.db.(ledger := asked.db.ledger + [ModelFailed(iteration, last.error)]);
        Consulted(e, st, iteration)
        == Failed(asked.(db := StoppedRows(failed, "model_error")), RunResult("", iteration, "model_error", None))
  {
    hide ApplyAll, AskModel, StopWrites, Retries;
    var intended := st.(db := Apply(st.db, Journal(ModelIntent(iteration))));
    n := AskingEnds(e, intended, iteration, 1);
    var asked := AskModel(e, intended, iteration, 1);
    if asked.1.Response? {
      var ws := AnsweredWrites(iteration, |intended.db.journal|, asked.1);
      ApplyTwo(asked.0.db, ws[0], ws[1]);
      assert ws == [ws[0], ws[1]];
    } else {
      StopIsRows(Apply(asked.0.db, Log(ModelFailed(iteration, asked.1.error))), "model_error");
    }
  }

  /** The spent tokens are those of the recorded responses, in and out. */
  lemma TokensAdd(ledger: seq<Event>, ev: Event)
    ensures TotalTokens(ledger + [ev])
         == TotalTokens(ledger) + (if ev.ModelCalled? then ev.inTokens + ev.outTokens else 0)
  {
    assert (ledger + [ev])[..|ledger|] == ledger;
  }

  // ------------------------------------------------------------ after a recorded response

  /** The last n entries are all this one. */
  predicate EndsIn(h: seq<Signature>, sig: Signature, n: nat) {
    |h| >= n && forall i :: |h| - n <= i < |h| ==> h[i] == sig
  }

  lemma LoopDetectedExactly(history: seq<Signature>, sig: Signature, n: nat)
    requires n >= 1
    ensures LoopDetected(history + [sig], n) <==> EndsIn(history + [sig], sig, n)
  {
    var h := history + [sig];
    if |h| >= n {
      var last := LastN(h, n);
      assert last[n - 1] == sig;
      if AllEqual(last) {
        forall i | |h| - n <= i < |h|
          ensures h[i] == sig
        {
          assert h[i] == last[i - (|h| - n)];
        }
      }
    }
  }

  /** Over the token budget the loop stops. */
  lemma OverspentTurnStops<W>(e: Env<W>, st: St<W>, iteration: nat, seqNo: nat, history: seq<Signature>, r: Reply)
    requires r.Response? && TotalTokens(st.db.ledger) > e.guards.maxTotalTokens
    ensures Act(e, st, iteration, seqNo, history, r)
         == Return(st.(db := StoppedRows(st.db, "budget")), RunResult("", iteration, "budget", None))
  {
    hide ApplyAll, StopWrites, ExecPending, TotalTokens;
    StopIsRows(st.db, "budget");
  }

  /** A response without calls ends the run exactly if the finalize guard has no objection; otherwise the
      objection is put to the model as the user's words and the loop goes on. */
  lemma FinalAnswerMeetsTheGuard<W>(e: Env<W>, st: St<W>, iteration: nat, seqNo: nat, history: seq<Signature>, r: Reply)
    requires r.Response? && r.calls == [] && TotalTokens(st.db.ledger) <= e.guards.maxTotalTokens
    ensures var reason, said := e.refusal(st.db), Said(st.db, r.text);
      Act(e, st, iteration, seqNo, history, r)
      == if reason == "" then
           Return(st.(db := FinalRows(st.db, r.text, iteration)), RunResult(r.text, iteration, "completed", None))
         else
           Next(st.(db := said.(messages := said.messages + [UserMsg(reason)],
                                ledger := st.db.ledger + [FinalizeRefused(reason)])), history)
  {
    hide ApplyAll, ExecPending, TotalTokens, FinalizeWrites, RefusalWrites;
    FinalIsRows(st.db, r.text, iteration);
    RefusalIsRows(st.db, r.text, e.refusal(st.db));
  }

  /** A response with calls stops the loop if it would be the threshold-th in a row with the same calls;
      otherwise its calls are handed to execution and the loop goes on, or pauses with them. */
  lemma CallsAreHandedOn<W>(e: Env<W>, st: St<W>, iteration: nat, seqNo: nat, history: seq<Signature>, r: Reply)
    requires r.Response? && r.calls != [] && TotalTokens(st.db.ledger) <= e.guards.maxTotalTokens
    requires e.guards.cycleThreshold >= 1
    ensures var sig, t := CycleSignature(r.calls), Act(e, st, iteration, seqNo, history, r);
      if EndsIn(history + [sig], sig, e.guards.cycleThreshold) then
        t == Return(st.(db := StoppedRows(st.db, "loop_detected")), RunResult("", iteration, "loop_detected", None))
      else
        var out := ExecPending(e, st.(db := Said(st.db, r.text)), Tag(r.calls, seqNo));
        t == if out.Paused? then Return(out.st, RunResult("", iteration, "awaiting_approval", Some(out.aid)))
             else Next(out.st, history + [sig])
  {
    hide ApplyAll, ExecPending, TotalTokens, StopWrites, LoopDetected, EndsIn, CycleSignature, AssistantText;
    LoopDetectedExactly(history, CycleSignature(r.calls), e.guards.cycleThreshold);
    StopIsRows(st.db, "loop_detected");
    SaidIsRows(st.db, r.text);
  }

  // ------------------------------------------------------------ a whole loop

  /** These rows are a final answer's, and the finalize guard had no objection to the rows before it. */
  ghost predicate GuardedFinal<W>(e: Env<W>, after: Session, text: string, iteration: nat) {
    exists before :: e.refusal(before) == "" && after == FinalRows(before, text, iteration)
  }

  /** Past `from`, a finalize event can only be the last one, of a guarded final answer; and "completed"
      means such an answer. */
  ghost predicate EndsProperly<W>(e: Env<W>, from: nat, out: (St<W>, RunResult)) {
    var ledger := out.0.db.ledger;
    && (out.1.reason == "completed" ==> GuardedFinal(e, out.0.db, out.1.text, out.1.iterations))
    && forall i :: from <= i < |ledger| && ledger[i].FinalizeLogged? ==>
         i == |ledger| - 1 && out.1.reason == "completed"
  }

  lemma ActEndsProperly<W>(e: Env<W>, st: St<W>, iteration: nat, seqNo: nat, history: seq<Signature>, r: Reply)
    requires r.Response?
    ensures var t := Act(e, st, iteration, seqNo, history, r);
      if t.Next? then Quietly(st.db.ledger, t.st.db.ledger)
      else EndsProperly(e, |st.db.ledger|, (t.st, t.result)) && st.db.ledger <= t.st.db.ledger
  {
    hide ApplyAll, ExecPending, LoopDetected, CycleSignature, TotalTokens, StopWrites, FinalizeWrites;
    ActBounds(e, st, iteration, seqNo, history, r);
    StopIsRows(st.db, "budget");
    StopIsRows(st.db, "loop_detected");
    FinalIsRows(st.db, r.text, iteration);
    ApplyQuiet(st.db, AssistantText(r.text));
    ExecPendingQuiet(e, st.(db := ApplyAll(st.db, AssistantText(r.text))), Tag(r.calls, seqNo));
    var verdict := Judge(e, st, seqNo, history, r);
    if verdict.Final? {
      assert GuardedFinal(e, FinalRows(st.db, r.text, iteration), r.text, iteration);
    }
  }

  lemma OpeningEndsProperly<W>(e: Env<W>, st: St<W>, iteration: nat)
    ensures var c := Opening(e, st, iteration);
      if c.Failed? then Quietly(st.db.ledger, c.st.db.ledger) && c.result.reason != "completed"
      else c.st.db.ledger != [] && Quietly(st.db.ledger, c.st.db.ledger[..|c.st.db.ledger| - 1])
           && !c.st.db.ledger[|c.st.db.ledger| - 1].FinalizeLogged?
  {
    hide ApplyAll, AskModel, StopWrites;
    OpeningBounds(e, st, iteration);
    if GuardReason(e, st) == "" {
      var intended := st.(polls := st.polls + 1, db := Apply(st.db, Journal(ModelIntent(iteration))));
      var asked := AskModel(e, intended, iteration, 1);
      if asked.1.Response? {
        var ws := AnsweredWrites(iteration, |intended.db.journal|, asked.1);
        ApplyTwo(asked.0.db, ws[0], ws[1]);
        assert ws == [ws[0], ws[1]];
      }
    }
  }

  /** The two halves of a turn put together. */
  lemma TurnEndsProperly<W>(e: Env<W>, st: St<W>, iteration: nat, history: seq<Signature>)
    ensures var t := Iterate(e, st, iteration, history);
      && st.db.ledger <= t.st.db.ledger
      && if t.Next? then forall i :: |st.db.ledger| <= i < |t.st.db.ledger| ==> !t.st.db.ledger[i].FinalizeLogged?
         else EndsProperly(e, |st.db.ledger|, (t.st, t.result))
  {
    hide Opening, Act, GuardedFinal;
    OpeningEndsProperly(e, st, iteration);
    var c := Opening(e, st, iteration);
    if c.Heard? {
      ActEndsProperly(e, c.st, iteration, c.seqNo, history, c.reply);
    }
  }

  /** Of every loop, whatever the model answers and the guard says: it reports "completed", and its ledger
      gets a finalize event, only for a final answer to which the finalize guard had no objection, given the
      rows just before that answer's own. */
  lemma {:induction false} FinalAnswersPassTheGuard<W>(e: Env<W>, st: St<W>, iteration: nat, history: seq<Signature>)
    ensures st.db.ledger <= Loop(e, st, iteration, history).0.db.ledger
    ensures EndsProperly(e, |st.db.ledger|, Loop(e, st, iteration, history))
    decreases e.guards.maxIterations + 1 - iteration
  {
    hide Iterate, GuardedFinal, ApplyAll, StopWrites;
    if iteration > e.guards.maxIterations {
      StopIsRows(st.db, "max_iterations");
    } else {
      TurnEndsProperly(e, st, iteration, history);
      var t := Iterate(e, st, iteration, history);
      if t.Next? {
        FinalAnswersPassTheGuard(e, t.st, iteration + 1, t.history);
      }
    }
  }

  /** A run first keeps the user's words and marks the context as assembled. */
  lemma RunStartsWithTheTask<W>(e: Env<W>, st: St<W>, text: string)
    ensures Run(e, st, text)
         == Loop(e, st.(db := st.db.(messages := st.db.messages + [UserMsg(text)],
                                     journal := st.db.journal + [Assemble])), 1, [])
  {
    hide Loop;
    var ws := RunWrites(text);
    ApplyTwo(st.db, ws[0], ws[1]);
  }
}
