/** What the loop's guards guarantee for a whole `_loop` (scr/kernel.py): bounded adapter attempts,
    a token budget overrun by at most one response, and no repeated cycle of calls. */
module LoopBounds {
  import opened Basics
  import opened Capability
  import opened State
  import opened KernelSpec

  // ----------------------------------------- executing calls asks no model

  /** The ledger grew, and by no model call. */
  predicate Unasked(a: seq<Event>, b: seq<Event>) {
    a <= b && forall i :: |a| <= i < |b| ==> !b[i].ModelCalled?
  }

  /** Nor by a finalize event. */
  predicate Quietly(a: seq<Event>, b: seq<Event>) {
    a <= b && forall i :: |a| <= i < |b| ==> !b[i].ModelCalled? && !b[i].FinalizeLogged?
  }

  predicate QuietWrites(ws: seq<Write>) {
    forall i :: 0 <= i < |ws| && ws[i].Log? ==> !ws[i].event.ModelCalled? && !ws[i].event.FinalizeLogged?
  }

  lemma {:induction false} ApplyQuiet(s: Session, ws: seq<Write>)
    requires QuietWrites(ws)
    ensures Quietly(s.ledger, ApplyAll(s, ws).ledger)
    decreases |ws|
  {
    if ws != [] {
      ApplyQuiet(Apply(s, ws[0]), ws[1..]);
    }
  }

  lemma ExecCallQuiet<W>(e: Env<W>, st: St<W>, call: Call)
    ensures Quietly(st.db.ledger, ExecCall(e, st, call).db.ledger)
    ensures ExecCall(e, st, call).attempts == st.attempts
  {
    hide ApplyAll, ClassificationAllowed, IsToolError;
    var denial := Denial(e.setup, call.name);
    if denial.Some? {
      ApplyQuiet(st.db, CapDeniedWrites(call, denial.value));
    } else {
      var key, db := NextKey(st.db, call), Apply(st.db, IntentWrite(e.setup, st.db, call));
      if key in db.results {
        ApplyQuiet(db, DoneWrites(call, key, |db.journal|, true, db.results[key], false));
      } else {
        ApplyQuiet(db, DoneWrites(call, key, |db.journal|, false, e.fn(call.name, call.args, st.world).0, false));
      }
    }
  }

  lemma {:induction false} PersistAllQuiet(k: Setup, s: Session, batch: seq<Call>, results: seq<string>)
    requires |batch| == |results|
    ensures Quietly(s.ledger, PersistAll(k, s, batch, results).ledger)
    decreases |batch|
  {
    hide ApplyAll, IsToolError;
    if batch != [] {
      var call := batch[0];
      var key, db := NextKey(s, call), Apply(s, IntentWrite(k, s, call));
      if key in db.results {
        ApplyQuiet(db, DoneWrites(call, key, |db.journal|, true, db.results[key], true));
      } else {
        ApplyQuiet(db, DoneWrites(call, key, |db.journal|, false, results[0], true));
      }
      PersistAllQuiet(k, Persist(k, s, call, results[0]), batch[1..], results[1..]);
    }
  }

  lemma HandleFirstQuiet<W>(e: Env<W>, st: St<W>, calls: seq<Call>)
    requires calls != []
    ensures Quietly(st.db.ledger, HandleFirst(e, st, calls).st.db.ledger)
    ensures HandleFirst(e, st, calls).st.attempts == st.attempts
  {
    hide ApplyAll, ExecCall;
    var sid, call := st.db.sid, calls[0];
    match GateOf(e.setup, st.db, call) {
      case Undecided => ApplyQuiet(st.db, PauseWrites(sid, calls));
      case Refused(who) => ApplyQuiet(st.db, RefusedWrites(sid, call, who));
      case Cleared(who) => ExecCallQuiet(e, st.(db := Apply(st.db, ClearedWrite(sid, call, who))), call);
      case Open => ExecCallQuiet(e, st, call);
    }
  }

  function PassEnd<W>(p: Pass<W>): St<W> {
    if p.Halt? then p.outcome.st else p.st
  }

  lemma PassQuiet<W>(e: Env<W>, st: St<W>, calls: seq<Call>)
    requires calls != []
    ensures Quietly(st.db.ledger, PassEnd(PassOver(e, st, calls)).db.ledger)
    ensures PassEnd(PassOver(e, st, calls)).attempts == st.attempts
  {
    hide HandleFirst, PersistAll, RunFns, BatchEligible;
    var polled := st.(polls := st.polls + 1);
    var n := EligibleRun(e.setup, calls);
    if n >= 2 {
      var out := RunFns(e, calls[..n], e.schedule(polled.polls, n), st.world);
      PersistAllQuiet(e.setup, st.db, calls[..n], Collect(out.0, n));
    } else {
      HandleFirstQuiet(e, polled, calls);
    }
  }

  lemma {:induction false} ExecPendingQuiet<W>(e: Env<W>, st: St<W>, calls: seq<Call>)
    ensures Quietly(st.db.ledger, ExecPending(e, st, calls).st.db.ledger)
    ensures ExecPending(e, st, calls).st.attempts == st.attempts
    decreases |calls|
  {
    hide PassOver;
    if calls != [] {
      PassQuiet(e, st, calls);
      var p := PassOver(e, st, calls);
      if p.Went? {
        ExecPendingQuiet(e, p.st, calls[p.n..]);
      }
    }
  }

  lemma {:induction false} AskQuiet<W>(e: Env<W>, st: St<W>, iteration: nat, attempt: nat)
    requires 1 <= attempt <= e.guards.modelRetries + 1
    ensures var out := AskModel(e, st, iteration, attempt).0;
      && Quietly(st.db.ledger, out.db.ledger)
      && st.attempts <= out.attempts <= st.attempts + (e.guards.modelRetries + 1 - attempt)
    decreases e.guards.modelRetries + 1 - attempt
  {
    if attempt <= e.guards.modelRetries {
      var reply := e.adapter(st.attempts);
      if reply.TransientError? && attempt < e.guards.modelRetries {
        var retried := Log(ModelRetried(iteration, attempt, reply.error));
        AskQuiet(e, st.(attempts := st.attempts + 1, db := Apply(st.db, retried)),
                 iteration, attempt + 1);
      }
    }
  }

  // ------------------------------------------------------------------ tokens

  lemma {:induction false} QuietTokens(a: seq<Event>, b: seq<Event>)
    requires Unasked(a, b)
    ensures TotalTokens(b) == TotalTokens(a)
    decreases |b|
  {
    if |b| > |a| {
      QuietTokens(a, b[..|b| - 1]);
    } else {
      assert a == b;
    }
  }

  /** Whenever a response was recorded past `from`, the tokens before it were within the budget. */
  predicate WithinBudget(ledger: seq<Event>, from: nat, max: nat) {
    forall i :: from <= i < |ledger| && ledger[i].ModelCalled? ==> TotalTokens(ledger[..i]) <= max
  }

  lemma BudgetQuiet(a: seq<Event>, b: seq<Event>, from: nat, max: nat)
    requires Unasked(a, b) && WithinBudget(a, from, max)
    ensures WithinBudget(b, from, max)
  {
    forall i | from <= i < |b| && b[i].ModelCalled?
      ensures TotalTokens(b[..i]) <= max
    {
      assert i < |a| && b[..i] == a[..i] && a[i] == b[i];
    }
  }

  lemma BudgetAnswered(a: seq<Event>, ev: Event, from: nat, max: nat)
    requires WithinBudget(a, from, max) && TotalTokens(a) <= max
    ensures WithinBudget(a + [ev], from, max)
  {
    forall i | from <= i < |a + [ev]| && (a + [ev])[i].ModelCalled?
      ensures TotalTokens((a + [ev])[..i]) <= max
    {
      if i < |a| {
        assert (a + [ev])[..i] == a[..i] && (a + [ev])[i] == a[i];
      } else {
        assert (a + [ev])[..i] == a;
      }
    }
  }

  /** The total is within the budget, or it is the budgeted total before some response plus that one
      response. */
  predicate OverrunByAtMostOne(ledger: seq<Event>, max: nat) {
    || TotalTokens(ledger) <= max
    || exists i :: 0 <= i < |ledger| && ledger[i].ModelCalled? && TotalTokens(ledger[..i]) <= max
                   && TotalTokens(ledger) == TotalTokens(ledger[..i]) + EventTokens(ledger[i])
  }

  lemma TokensOfLast(ledger: seq<Event>)
    requires ledger != []
    ensures TotalTokens(ledger) == TotalTokens(ledger[..|ledger| - 1]) + EventTokens(ledger[|ledger| - 1])
  {
  }

  lemma {:induction false} BudgetMeansOneOverrun(ledger: seq<Event>, from: nat, max: nat)
    requires from <= |ledger| && TotalTokens(ledger[..from]) <= max && WithinBudget(ledger, from, max)
    ensures OverrunByAtMostOne(ledger, max)
    decreases |ledger|
  {
    hide TotalTokens;
    if |ledger| == from {
      assert ledger[..from] == ledger;
    } else {
      var n := |ledger| - 1;
      var init := ledger[..n];
      TokensOfLast(ledger);
      if !ledger[n].ModelCalled? {
        assert init[..from] == ledger[..from];
        forall i | from <= i < |init| && init[i].ModelCalled?
          ensures TotalTokens(init[..i]) <= max
        {
          assert init[..i] == ledger[..i];
        }
        BudgetMeansOneOverrun(init, from, max);
        if TotalTokens(init) > max {
          var i :| 0 <= i < |init| && init[i].ModelCalled? && TotalTokens(init[..i]) <= max
                   && TotalTokens(init) == TotalTokens(init[..i]) + EventTokens(init[i]);
          assert init[..i] == ledger[..i] && ledger[i] == init[i];
        }
      }
    }
  }

  // ------------------------------------------------------------------ cycles

  /** The n entries that end at position j. */
  function Window(h: seq<Signature>, j: nat, n: nat): seq<Signature>
    requires n <= j <= |h|
  {
    h[j - n..j]
  }

  /** No n consecutive entries are equal. */
  predicate NoRepeat(h: seq<Signature>, n: nat)
    requires n >= 1
  {
    forall j :: n <= j <= |h| ==> !AllEqual(Window(h, j, n))
  }

  lemma NoRepeatSnoc(h: seq<Signature>, sig: Signature, n: nat)
    requires n >= 1 && NoRepeat(h, n) && !LoopDetected(h + [sig], n)
    ensures NoRepeat(h + [sig], n)
  {
    var h' := h + [sig];
    forall j | n <= j <= |h'|
      ensures !AllEqual(Window(h', j, n))
    {
      if j <= |h| {
        assert Window(h', j, n) == Window(h, j, n);
      } else {
        assert Window(h', j, n) == LastN(h', n);
      }
    }
  }

  // --------------------------------------------------------------- one turn

  /** Order-free identity of a list of calls. */
  function SignatureOf(calls: seq<Call>): Signature {
    multiset(seq(|calls|, i requires 0 <= i < |calls| => (calls[i].name, calls[i].args)))
  }

  function Signatures(lists: seq<seq<Call>>): (r: seq<Signature>)
    ensures |r| == |lists|
  {
    seq(|lists|, i requires 0 <= i < |lists| => SignatureOf(lists[i]))
  }

  lemma TagSignature(calls: seq<Emission>, response: nat)
    ensures SignatureOf(Tag(calls, response)) == CycleSignature(calls)
  {
    var tagged := Tag(calls, response);
    assert seq(|tagged|, i requires 0 <= i < |tagged| => (tagged[i].name, tagged[i].args)) == CallKeys(calls);
  }

  /** The calls that this turn hands to `_execute_pending`. */
  function TurnHands<W>(e: Env<W>, st: St<W>, iteration: nat, history: seq<Signature>): (r: seq<seq<Call>>)
    ensures |r| <= 1
  {
    match Opening(e, st, iteration)
    case Failed(_, _) => []
    case Heard(heard, seqNo, reply) =>
      var verdict := Judge(e, heard, seqNo, history, reply);
      if verdict.Hand? then [verdict.calls] else []
  }

  lemma FinalizeLogs(db: Session, text: string, iteration: nat)
    ensures ApplyAll(db, FinalizeWrites(text, iteration)).ledger == db.ledger + [FinalizeLogged(iteration)]
  {
    hide ApplyAll;
    var ws := FinalizeWrites(text, iteration);
    ApplyThree(db, ws[0], ws[1], ws[2]);
    assert ws == [ws[0], ws[1], ws[2]];
  }

  lemma ActBounds<W>(e: Env<W>, st: St<W>, iteration: nat, seqNo: nat, history: seq<Signature>, r: Reply)
    requires r.Response?
    ensures var t := Act(e, st, iteration, seqNo, history, r);
      && Unasked(st.db.ledger, t.st.db.ledger) && t.st.attempts == st.attempts
      && (t.Next? ==> Quietly(st.db.ledger, t.st.db.ledger) && TotalTokens(st.db.ledger) <= e.guards.maxTotalTokens)
      && (t.Return? ==> t.result.iterations == iteration)
  {
    hide ApplyAll, ExecPending, LoopDetected, CycleSignature;
    ApplyQuiet(st.db, StopWrites("budget"));
    ApplyQuiet(st.db, StopWrites("loop_detected"));
    FinalizeLogs(st.db, r.text, iteration);
    ApplyQuiet(st.db, AssistantText(r.text));
    ApplyQuiet(st.db, RefusalWrites(r.text, e.refusal(st.db)));
    ExecPendingQuiet(e, st.(db := ApplyAll(st.db, AssistantText(r.text))), Tag(r.calls, seqNo));
  }

  lemma AnsweredLedger(db: Session, iteration: nat, seqNo: nat, r: Reply)
    requires r.Response?
    ensures exists ev :: ApplyAll(db, AnsweredWrites(iteration, seqNo, r)).ledger == db.ledger + [ev]
  {
    var ws := AnsweredWrites(iteration, seqNo, r);
    ApplyTwo(db, ws[0], ws[1]);
    assert ApplyAll(db, ws).ledger == db.ledger + [ws[1].event];
  }

  lemma StopQuiet(db: Session, reason: string)
    ensures Quietly(db.ledger, ApplyAll(db, StopWrites(reason)).ledger)
  {
    ApplyQuiet(db, StopWrites(reason));
  }

  /** The ledger grew quietly and then by one event. */
  ghost predicate OneMore(a: seq<Event>, b: seq<Event>) {
    b != [] && Quietly(a, b[..|b| - 1])
  }

  /** Up to the recorded response: at most `modelRetries` attempts, and at most that one response. */
  lemma OpeningBounds<W>(e: Env<W>, st: St<W>, iteration: nat)
    ensures var c := Opening(e, st, iteration);
      && st.attempts <= c.st.attempts <= st.attempts + e.guards.modelRetries
      && (c.Failed? ==> Quietly(st.db.ledger, c.st.db.ledger) && c.result.iterations == iteration)
      && (c.Heard? ==> OneMore(st.db.ledger, c.st.db.ledger))
  {
    hide ApplyAll, AskModel, AnsweredWrites, StopWrites, GuardReason;
    var reason := GuardReason(e, st);
    StopQuiet(st.db, reason);
    if reason == "" {
      var intended := st.(polls := st.polls + 1, db := Apply(st.db, Journal(ModelIntent(iteration))));
      AskQuiet(e, intended, iteration, 1);
      var asked := AskModel(e, intended, iteration, 1);
      if asked.1.FatalError? {
        StopQuiet(Apply(asked.0.db, Log(ModelFailed(iteration, asked.1.error))), "model_error");
      } else {
        AnsweredLedger(asked.0.db, iteration, |intended.db.journal|, asked.1);
        var ledger := Opening(e, st, iteration).st.db.ledger;
        assert ledger[..|ledger| - 1] == asked.0.db.ledger;
      }
    }
  }

  lemma IterateAttempts<W>(e: Env<W>, st: St<W>, iteration: nat, history: seq<Signature>)
    ensures var t := Iterate(e, st, iteration, history);
      && st.attempts <= t.st.attempts <= st.attempts + e.guards.modelRetries
      && st.db.ledger <= t.st.db.ledger
      && (t.Return? ==> t.result.iterations == iteration)
  {
    hide Opening, Act;
    OpeningBounds(e, st, iteration);
    var c := Opening(e, st, iteration);
    if c.Heard? {
      ActBounds(e, c.st, iteration, c.seqNo, history, c.reply);
    }
  }

  /** One iteration: from within the budget it respects the budget, from above it the loop ends. */
  lemma IterateBudget<W>(e: Env<W>, st: St<W>, iteration: nat, history: seq<Signature>, from: nat)
    ensures var t, max := Iterate(e, st, iteration, history), e.guards.maxTotalTokens;
      && (t.Next? ==> TotalTokens(st.db.ledger) <= max && TotalTokens(t.st.db.ledger) <= max)
      && (TotalTokens(st.db.ledger) <= max && WithinBudget(st.db.ledger, from, max) ==>
            WithinBudget(t.st.db.ledger, from, max))
  {
    hide Opening, Act, WithinBudget, TotalTokens;
    OpeningBounds(e, st, iteration);
    var c, t, max := Opening(e, st, iteration), Iterate(e, st, iteration, history), e.guards.maxTotalTokens;
    var within := TotalTokens(st.db.ledger) <= max && WithinBudget(st.db.ledger, from, max);
    if c.Failed? {
      if within {
        BudgetQuiet(st.db.ledger, c.st.db.ledger, from, max);
      }
    } else {
      var mid := c.st.db.ledger[..|c.st.db.ledger| - 1];
      var ev := c.st.db.ledger[|c.st.db.ledger| - 1];
      assert c.st.db.ledger == mid + [ev];
      QuietTokens(st.db.ledger, mid);
      TokensOfLast(c.st.db.ledger);
      ActBounds(e, c.st, iteration, c.seqNo, history, c.reply);
      QuietTokens(c.st.db.ledger, t.st.db.ledger);
      if within {
        BudgetQuiet(st.db.ledger, mid, from, max);
        BudgetAnswered(mid, ev, from, max);
        BudgetQuiet(c.st.db.ledger, t.st.db.ledger, from, max);
      }
    }
  }

  // --------------------------------------------------------------- the loop

  lemma {:induction false} LoopAttempts<W>(e: Env<W>, st: St<W>, iteration: nat, history: seq<Signature>)
    requires 1 <= iteration <= e.guards.maxIterations + 1
    ensures var out := Loop(e, st, iteration, history);
      && st.attempts <= out.0.attempts <= st.attempts + (e.guards.maxIterations + 1 - iteration) * e.guards.modelRetries
      && out.1.iterations <= e.guards.maxIterations && st.db.ledger <= out.0.db.ledger
    decreases e.guards.maxIterations + 1 - iteration
  {
    hide Iterate, ApplyAll, StopWrites;
    var left, retries := e.guards.maxIterations + 1 - iteration, e.guards.modelRetries;
    if left == 0 {
      StopQuiet(st.db, "max_iterations");
    } else {
      IterateAttempts(e, st, iteration, history);
      var t := Iterate(e, st, iteration, history);
      assert left * retries == retries + (left - 1) * retries;
      if t.Next? {
        LoopAttempts(e, t.st, iteration + 1, t.history);
      }
    }
  }

  lemma {:induction false} LoopBudget<W>(e: Env<W>, st: St<W>, iteration: nat, history: seq<Signature>, from: nat)
    requires TotalTokens(st.db.ledger) <= e.guards.maxTotalTokens
    requires WithinBudget(st.db.ledger, from, e.guards.maxTotalTokens)
    ensures WithinBudget(Loop(e, st, iteration, history).0.db.ledger, from, e.guards.maxTotalTokens)
    decreases e.guards.maxIterations + 1 - iteration
  {
    hide Iterate, WithinBudget, TotalTokens, ApplyAll, StopWrites;
    if iteration > e.guards.maxIterations {
      StopQuiet(st.db, "max_iterations");
      BudgetQuiet(st.db.ledger, ApplyAll(st.db, StopWrites("max_iterations")).ledger, from, e.guards.maxTotalTokens);
    } else {
      IterateBudget(e, st, iteration, history, from);
      var t := Iterate(e, st, iteration, history);
      if t.Next? {
        LoopBudget(e, t.st, iteration + 1, t.history, from);
      }
    }
  }

  /** Every loop makes at most maxIterations × modelRetries adapter attempts. If it starts within the token
      budget, each response it records was asked for while the total was within the budget, so that it
      ends at most one response above it; if it starts above, its first iteration is its last. */
  lemma LoopIsBounded<W>(e: Env<W>, st: St<W>)
    ensures var out, max := Loop(e, st, 1, []), e.guards.maxTotalTokens;
      && out.0.attempts <= st.attempts + e.guards.maxIterations * e.guards.modelRetries
      && out.1.iterations <= e.guards.maxIterations
      && (TotalTokens(st.db.ledger) <= max ==>
            WithinBudget(out.0.db.ledger, |st.db.ledger|, max) && OverrunByAtMostOne(out.0.db.ledger, max))
      && (TotalTokens(st.db.ledger) > max ==>
            out.1.iterations <= 1 && out.0.attempts <= st.attempts + e.guards.modelRetries)
  {
    hide TotalTokens, Iterate, OverrunByAtMostOne, WithinBudget;
    var from := |st.db.ledger|;
    LoopAttempts(e, st, 1, []);
    if TotalTokens(st.db.ledger) <= e.guards.maxTotalTokens {
      NothingYet(st.db.ledger, e.guards.maxTotalTokens);
      LoopBudget(e, st, 1, [], from);
      var ledger := Loop(e, st, 1, []).0.db.ledger;
      assert ledger[..from] == st.db.ledger;
      BudgetMeansOneOverrun(ledger, from, e.guards.maxTotalTokens);
    } else {
      IterateBudget(e, st, 1, [], from);
      IterateAttempts(e, st, 1, []);
    }
  }

  lemma NothingYet(ledger: seq<Event>, max: nat)
    ensures WithinBudget(ledger, |ledger|, max)
  {
  }

  /** The lists of calls that the loop executes, in order. */
  function Executed<W>(e: Env<W>, st: St<W>, iteration: nat, history: seq<Signature>): seq<seq<Call>>
    decreases e.guards.maxIterations + 1 - iteration
  {
    if iteration > e.guards.maxIterations then []
    else
      var t := Iterate(e, st, iteration, history);
      TurnHands(e, st, iteration, history)
      + (if t.Next? then Executed(e, t.st, iteration + 1, t.history) else [])
  }

  /** Over a whole loop, no cycleThreshold consecutive lists of calls with the same multiset of calls are
      executed. */
  lemma {:induction false} NoCycleIsExecuted<W>(e: Env<W>, st: St<W>, iteration: nat, history: seq<Signature>)
    requires e.guards.cycleThreshold >= 1 && NoRepeat(history, e.guards.cycleThreshold)
    ensures NoRepeat(history + Signatures(Executed(e, st, iteration, history)), e.guards.cycleThreshold)
    decreases e.guards.maxIterations + 1 - iteration
  {
    hide Iterate, NoRepeat, TurnHands, LoopDetected;
    if iteration > e.guards.maxIterations {
      assert history + Signatures([]) == history;
    } else {
      var t, mine := Iterate(e, st, iteration, history), TurnHands(e, st, iteration, history);
      TurnIsNoRepeat(e, st, iteration, history);
      if t.Next? {
        NoCycleIsExecuted(e, t.st, iteration + 1, t.history);
        var rest := Executed(e, t.st, iteration + 1, t.history);
        assert history + Signatures(mine + rest) == (history + Signatures(mine)) + Signatures(rest);
      } else {
        assert mine + [] == mine;
      }
    }
  }

  /** The turn's list, if any, is one that the cycle check let pass, and the loop remembers it. */
  lemma TurnIsNoRepeat<W>(e: Env<W>, st: St<W>, iteration: nat, history: seq<Signature>)
    requires e.guards.cycleThreshold >= 1 && NoRepeat(history, e.guards.cycleThreshold)
    ensures NoRepeat(history + Signatures(TurnHands(e, st, iteration, history)), e.guards.cycleThreshold)
    ensures var t := Iterate(e, st, iteration, history);
      t.Next? ==> t.history == history + Signatures(TurnHands(e, st, iteration, history))
  {
    hide ApplyAll, Opening, NoRepeat, LoopDetected, TotalTokens, CycleSignature, ExecPending, SignatureOf;
    var mine, c := TurnHands(e, st, iteration, history), Opening(e, st, iteration);
    if mine == [] {
      assert history + Signatures(mine) == history;
    } else {
      TagSignature(c.reply.calls, c.seqNo);
      assert Signatures(mine) == [CycleSignature(c.reply.calls)];
      NoRepeatSnoc(history, CycleSignature(c.reply.calls), e.guards.cycleThreshold);
    }
  }
}
