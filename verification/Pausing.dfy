/** Pausing for approval refines a single pass (scr/kernel.py, `_execute_pending` and `resume`):
    however many pauses and resumes it takes, the calls are handled as if every decision had been
    known before the first of them. */
module Pausing {
  import opened Basics
  import opened Capability
  import opened State
  import opened KernelSpec
  import opened Batching

  type Ruling = (ApprovalId, Decision)

  function DecideWrites(rulings: seq<Ruling>): seq<Write>
    decreases |rulings|
  {
    if rulings == [] then []
    else [PutApproval(rulings[0].0, rulings[0].1), Log(ApprovalLogged(rulings[0].0, rulings[0].1))]
         + DecideWrites(rulings[1..])
  }

  /** Execute; while paused and decisions are still to come, record the next ones and resume with
      the calls that the journal's tail holds. */
  function Rounds<W>(e: Env<W>, st: St<W>, calls: seq<Call>, rounds: seq<seq<Ruling>>): Outcome<W>
    decreases |rounds|
  {
    var out := ExecPending(e, st, calls);
    if out.Finished? || rounds == [] then out
    else
      var db := ApplyAll(out.st.db, DecideWrites(rounds[0]));
      var tail := Tail(db);
      if tail.None? || !tail.value.Awaiting? then out
      else Rounds(e, out.st.(db := db), tail.value.pending, rounds[1..])
  }

  // ------------------------------------------------------------- what is compared

  /** The events that record work on a call, with the key's journal position left out. */
  function WorkOf(ev: Event): seq<Event> {
    if ev.ApprovalRequired? || ev.ApprovalLogged? then []
    else if ev.ToolExec? then [ev.(key := IdemKey(ev.key.sid, 0, ev.key.tool, ev.key.args))]
    else [ev]
  }

  function Work(ledger: seq<Event>): seq<Event> {
    if ledger == [] then []
    else Work(ledger[..|ledger| - 1]) + WorkOf(ledger[|ledger| - 1])
  }

  lemma WorkSnoc(ledger: seq<Event>, ev: Event)
    ensures Work(ledger + [ev]) == Work(ledger) + WorkOf(ev)
  {
    assert (ledger + [ev])[..|ledger|] == ledger;
  }

  predicate SameWork(a: Session, b: Session) {
    a.sid == b.sid && a.messages == b.messages && Work(a.ledger) == Work(b.ledger)
  }

  /** Everything decided in a is decided the same way in b. */
  predicate DecidedIn(a: Session, b: Session) {
    forall aid :: aid in a.approvals ==> aid in b.approvals && a.approvals[aid] == b.approvals[aid]
  }

  predicate Matches<W(==)>(a: St<W>, b: St<W>) {
    SameWork(a.db, b.db) && DecidedIn(a.db, b.db) && FreshKeys(a.db) && FreshKeys(b.db) && a.world == b.world
  }

  /** A pool that does not look at when it is asked. */
  ghost predicate Steady<W>(e: Env<W>) {
    forall p, q, n :: e.schedule(p, n) == e.schedule(q, n)
  }

  /** A batch gives the same results and the same world whenever it runs. */
  ghost predicate SameBatches<W(!new)>(e: Env<W>) {
    forall batch, p, q, w: W :: AllEligible(e.setup, batch) ==>
      BatchResult(e, batch, p, w) == BatchResult(e, batch, q, w)
  }

  predicate AllEligible(k: Setup, batch: seq<Call>) {
    forall i :: 0 <= i < |batch| ==> BatchEligible(k, batch[i])
  }

  function BatchResult<W>(e: Env<W>, batch: seq<Call>, p: nat, w: W): (seq<string>, W) {
    var out := RunFns(e, batch, e.schedule(p, |batch|), w);
    (Collect(out.0, |batch|), out.1)
  }

  /** That is so if the functions read only, or if the pool's order is always the same. */
  lemma BatchesAreSame<W(!new)>(e: Env<W>)
    requires (ReadOnly(e) && Scheduled(e)) || Steady(e)
    ensures SameBatches(e)
  {
    hide RunFns, BatchEligible;
    forall batch, p, q, w: W | AllEligible(e.setup, batch)
      ensures BatchResult(e, batch, p, w) == BatchResult(e, batch, q, w)
    {
      var n := |batch|;
      if Steady(e) {
        assert e.schedule(p, n) == e.schedule(q, n);
      } else {
        assert IsSchedule(e.schedule(p, n), n) && IsSchedule(e.schedule(q, n), n);
        RunFnsReadOnly(e, batch, e.schedule(p, n), w);
        RunFnsReadOnly(e, batch, e.schedule(q, n), w);
        assert BatchResult(e, batch, p, w).0 == BatchResult(e, batch, q, w).0;
      }
    }
  }

  // ---------------------------------------------------------------- congruences

  predicate WriteLike(v: Write, w: Write) {
    || (v.Post? && v == w)
    || (v.Log? && w.Log? && WorkOf(v.event) == WorkOf(w.event))
    || (v.Journal? && w.Journal?) || (v.PutResult? && w.PutResult?)
  }

  lemma {:induction false} ApplyAllWork(a: Session, b: Session, vs: seq<Write>, ws: seq<Write>)
    requires SameWork(a, b) && |vs| == |ws|
    requires forall i :: 0 <= i < |vs| ==> WriteLike(vs[i], ws[i])
    ensures SameWork(ApplyAll(a, vs), ApplyAll(b, ws))
    ensures ApplyAll(a, vs).approvals == a.approvals && ApplyAll(b, ws).approvals == b.approvals
    decreases |vs|
  {
    hide Work, WorkOf;
    if vs != [] {
      assert WriteLike(vs[0], ws[0]);
      if vs[0].Log? {
        WorkSnoc(a.ledger, vs[0].event);
        WorkSnoc(b.ledger, ws[0].event);
      }
      ApplyAllWork(Apply(a, vs[0]), Apply(b, ws[0]), vs[1..], ws[1..]);
    }
  }

  /** Saving only keys of journaled intents keeps the next key fresh. */
  lemma {:induction false} ApplyAllFresh(a: Session, ws: seq<Write>)
    requires FreshKeys(a)
    requires forall i :: 0 <= i < |ws| && ws[i].PutResult? ==> ws[i].key.seqNo <= |a.journal|
    ensures FreshKeys(ApplyAll(a, ws))
    decreases |ws|
  {
    if ws != [] {
      ApplyAllFresh(Apply(a, ws[0]), ws[1..]);
    }
  }

  lemma DoneMatches(a: Session, b: Session, call: Call, ka: IdemKey, kb: IdemKey, result: string, parallel: bool)
    requires SameWork(a, b) && FreshKeys(a) && FreshKeys(b)
    requires ka == IdemKey(a.sid, |a.journal|, call.name, call.args)
    requires kb == IdemKey(b.sid, |b.journal|, call.name, call.args)
    ensures var x, y := ApplyAll(a, DoneWrites(call, ka, |a.journal|, false, result, parallel)),
                        ApplyAll(b, DoneWrites(call, kb, |b.journal|, false, result, parallel));
      SameWork(x, y) && FreshKeys(x) && FreshKeys(y) && x.approvals == a.approvals && y.approvals == b.approvals
  {
    hide ApplyAll, IsToolError, Work;
    var vs := DoneWrites(call, ka, |a.journal|, false, result, parallel);
    var ws := DoneWrites(call, kb, |b.journal|, false, result, parallel);
    ApplyAllWork(a, b, vs, ws);
    ApplyAllFresh(a, vs);
    ApplyAllFresh(b, ws);
  }

  lemma WritesMatch(a: Session, b: Session, ws: seq<Write>)
    requires SameWork(a, b) && FreshKeys(a) && FreshKeys(b)
    requires forall i :: 0 <= i < |ws| ==> ws[i].Post? || ws[i].Log?
    ensures var x, y := ApplyAll(a, ws), ApplyAll(b, ws);
      SameWork(x, y) && FreshKeys(x) && FreshKeys(y) && x.approvals == a.approvals && y.approvals == b.approvals
  {
    hide ApplyAll, Work;
    ApplyAllWork(a, b, ws, ws);
    ApplyAllFresh(a, ws);
    ApplyAllFresh(b, ws);
  }

  lemma IntentMatches(k: Setup, a: Session, b: Session, call: Call)
    requires SameWork(a, b) && FreshKeys(a) && FreshKeys(b)
    ensures var x, y := Apply(a, IntentWrite(k, a, call)), Apply(b, IntentWrite(k, b, call));
      && SameWork(x, y) && FreshKeys(x) && FreshKeys(y) && x.approvals == a.approvals && y.approvals == b.approvals
      && NextKey(a, call) == IdemKey(x.sid, |x.journal|, call.name, call.args) && NextKey(a, call) !in x.results
      && NextKey(b, call) == IdemKey(y.sid, |y.journal|, call.name, call.args) && NextKey(b, call) !in y.results
  {
    hide Work;
  }

  lemma ExecCallMatches<W>(e: Env<W>, a: St<W>, b: St<W>, call: Call)
    requires Matches(a, b)
    ensures Matches(ExecCall(e, a, call), ExecCall(e, b, call))
    ensures ExecCall(e, a, call).db.approvals == a.db.approvals
  {
    hide ApplyAll, DoneWrites, IntentWrite, NextKey, ClassificationAllowed, SameWork, FreshKeys, Apply;
    var denial := Denial(e.setup, call.name);
    if denial.Some? {
      WritesMatch(a.db, b.db, CapDeniedWrites(call, denial.value));
    } else {
      IntentMatches(e.setup, a.db, b.db, call);
      var x, y := Apply(a.db, IntentWrite(e.setup, a.db, call)), Apply(b.db, IntentWrite(e.setup, b.db, call));
      DoneMatches(x, y, call, NextKey(a.db, call), NextKey(b.db, call), e.fn(call.name, call.args, a.world).0, false);
    }
  }

  /** A call that the paused side can handle is handled the same way in the single pass; a pause adds
      nothing that counts. */
  lemma HandleFirstMatches<W>(e: Env<W>, a: St<W>, b: St<W>, calls: seq<Call>)
    requires Matches(a, b) && calls != []
    ensures var x := HandleFirst(e, a, calls);
      && x.st.db.approvals == a.db.approvals
      && (x.Finished? ==> HandleFirst(e, b, calls).Finished? && Matches(x.st, HandleFirst(e, b, calls).st))
      && (x.Paused? ==> Matches(x.st, b) && x.st.db.sid == a.db.sid
                        && Tail(x.st.db).Some? && Tail(x.st.db).value.Awaiting? && Tail(x.st.db).value.pending == calls)
  {
    hide ApplyAll, ExecCall, RefusedWrites, Work;
    var sid, call := a.db.sid, calls[0];
    match GateOf(e.setup, a.db, call) {
      case Undecided =>
        var ws := PauseWrites(sid, calls);
        ApplyTwo(a.db, ws[0], ws[1]);
        WorkSnoc(a.db.ledger, ws[1].event);
      case Refused(who) => RefusedMatches(a.db, b.db, call, who);
      case Cleared(who) =>
        var w := ClearedWrite(sid, call, who);
        WorkSnoc(a.db.ledger, w.event);
        WorkSnoc(b.db.ledger, w.event);
        ExecCallMatches(e, a.(db := Apply(a.db, w)), b.(db := Apply(b.db, w)), call);
      case Open => ExecCallMatches(e, a, b, call);
    }
  }

  lemma RefusedMatches(a: Session, b: Session, call: Call, who: string)
    requires SameWork(a, b) && FreshKeys(a) && FreshKeys(b)
    ensures var x, y := ApplyAll(a, RefusedWrites(a.sid, call, who)), ApplyAll(b, RefusedWrites(a.sid, call, who));
      SameWork(x, y) && FreshKeys(x) && FreshKeys(y) && x.approvals == a.approvals && y.approvals == b.approvals
  {
    hide ApplyAll, SameWork, FreshKeys;
    WritesMatch(a, b, RefusedWrites(a.sid, call, who));
  }

  // ------------------------------------------------------------------------ batches

  lemma {:induction false} PersistAllMatches(k: Setup, a: Session, b: Session, batch: seq<Call>, results: seq<string>)
    requires SameWork(a, b) && FreshKeys(a) && FreshKeys(b) && |batch| == |results|
    ensures var x, y := PersistAll(k, a, batch, results), PersistAll(k, b, batch, results);
      SameWork(x, y) && FreshKeys(x) && FreshKeys(y) && x.approvals == a.approvals && y.approvals == b.approvals
    decreases |batch|
  {
    hide ApplyAll, DoneWrites, IntentWrite, NextKey, SameWork, FreshKeys, Apply;
    if batch != [] {
      var call := batch[0];
      IntentMatches(k, a, b, call);
      var x, y := Apply(a, IntentWrite(k, a, call)), Apply(b, IntentWrite(k, b, call));
      DoneMatches(x, y, call, NextKey(a, call), NextKey(b, call), results[0], true);
      PersistAllMatches(k, Persist(k, a, call, results[0]), Persist(k, b, call, results[0]), batch[1..], results[1..]);
    }
  }

  lemma BatchMatches<W(!new)>(e: Env<W>, a: St<W>, b: St<W>, batch: seq<Call>)
    requires Matches(a, b) && SameBatches(e) && AllEligible(e.setup, batch)
    ensures var x, y := RunBatch(e, a, batch), RunBatch(e, b, batch);
      Matches(x, y) && x.db.approvals == a.db.approvals && y.db.approvals == b.db.approvals
  {
    hide RunFns, PersistAll, SameWork, FreshKeys, AllEligible;
    assert BatchResult(e, batch, a.polls, a.world) == BatchResult(e, batch, b.polls, a.world);
    PersistAllMatches(e.setup, a.db, b.db, batch, BatchResult(e, batch, a.polls, a.world).0);
  }

  /** One pass of the loop: what the paused side does, the single pass does alike; and where the paused
      side pauses, nothing that counts has happened. */
  lemma PassMatches<W(!new)>(e: Env<W>, a: St<W>, b: St<W>, calls: seq<Call>)
    requires Matches(a, b) && SameBatches(e) && calls != [] && !e.cancelled(a.polls) && !e.cancelled(b.polls)
    ensures var x, y := PassOver(e, a, calls), PassOver(e, b, calls);
      if x.Went? then
        && y.Went? && x.n == y.n && Matches(x.st, y.st)
        && x.st.db.approvals == a.db.approvals && y.st.db.approvals == b.db.approvals
      else
        && x.outcome.Paused? && Matches(x.outcome.st, b)
        && x.outcome.st.db.approvals == a.db.approvals && WaitsIn(x.outcome.st.db, calls)
  {
    hide Matches, HandleFirst, RunBatch, SameBatches, BatchEligible;
    var a1, b1, n := a.(polls := a.polls + 1), b.(polls := b.polls + 1), EligibleRun(e.setup, calls);
    PollMatches(a, b);
    if n >= 2 {
      assert AllEligible(e.setup, calls[..n]);
      BatchMatches(e, a1, b1, calls[..n]);
    } else {
      HandleFirstMatches(e, a1, b1, calls);
      HandleFirstKeepsApprovals(e, b1, calls);
      UnpollMatches(HandleFirst(e, a1, calls).st, b);
    }
  }

  // --------------------------------------------------------------- one and many rounds

  /** One stretch without decisions: it stops where the single pass, having done the same, still has
      exactly the waiting calls before it. */
  lemma {:induction false} StretchMatches<W(!new)>(e: Env<W>, a: St<W>, b: St<W>, calls: seq<Call>)
    returns (b': St<W>, left: seq<Call>)
    requires Matches(a, b) && SameBatches(e) && forall p :: !e.cancelled(p)
    ensures var x := ExecPending(e, a, calls);
      && Matches(x.st, b')
      && x.st.db.approvals == a.db.approvals && b'.db.approvals == b.db.approvals
      && ExecPending(e, b, calls) == ExecPending(e, b', left)
      && (if x.Finished? then left == [] else WaitsIn(x.st.db, left))
    decreases |calls|
  {
    hide Matches, PassOver, SameBatches, WaitsIn;
    if calls == [] {
      b', left := b, calls;
    } else {
      PassMatches(e, a, b, calls);
      var x, y := PassOver(e, a, calls), PassOver(e, b, calls);
      if x.Went? {
        b', left := StretchMatches(e, x.st, y.st, calls[x.n..]);
      } else {
        b', left := b, calls;
      }
    }
  }

  predicate WaitsIn(db: Session, pending: seq<Call>) {
    var tail := Tail(db);
    tail.Some? && tail.value.Awaiting? && tail.value.pending == pending
  }

  lemma PollMatches<W>(a: St<W>, b: St<W>)
    ensures Matches(a, b) ==> Matches(a.(polls := a.polls + 1), b.(polls := b.polls + 1))
  {
  }

  lemma UnpollMatches<W>(a: St<W>, b: St<W>)
    ensures Matches(a, b.(polls := b.polls + 1)) ==> Matches(a, b)
  {
  }

  lemma {:induction false} ApprovalsKept(s: Session, ws: seq<Write>)
    requires forall i :: 0 <= i < |ws| ==> !ws[i].PutApproval?
    ensures ApplyAll(s, ws).approvals == s.approvals
    decreases |ws|
  {
    if ws != [] {
      ApprovalsKept(Apply(s, ws[0]), ws[1..]);
    }
  }

  lemma ExecCallKeepsApprovals<W>(e: Env<W>, st: St<W>, call: Call)
    ensures ExecCall(e, st, call).db.approvals == st.db.approvals
  {
    hide ApplyAll, ClassificationAllowed, IsToolError;
    var denial := Denial(e.setup, call.name);
    if denial.Some? {
      ApprovalsKept(st.db, CapDeniedWrites(call, denial.value));
    } else {
      var key, db := NextKey(st.db, call), Apply(st.db, IntentWrite(e.setup, st.db, call));
      if key in db.results {
        ApprovalsKept(db, DoneWrites(call, key, |db.journal|, true, db.results[key], false));
      } else {
        ApprovalsKept(db, DoneWrites(call, key, |db.journal|, false, e.fn(call.name, call.args, st.world).0, false));
      }
    }
  }

  lemma HandleFirstKeepsApprovals<W>(e: Env<W>, st: St<W>, calls: seq<Call>)
    requires calls != []
    ensures HandleFirst(e, st, calls).st.db.approvals == st.db.approvals
  {
    hide ApplyAll, ExecCall;
    var sid, call := st.db.sid, calls[0];
    match GateOf(e.setup, st.db, call) {
      case Undecided => ApprovalsKept(st.db, PauseWrites(sid, calls));
      case Refused(who) => ApprovalsKept(st.db, RefusedWrites(sid, call, who));
      case Cleared(who) => ExecCallKeepsApprovals(e, st.(db := Apply(st.db, ClearedWrite(sid, call, who))), call);
      case Open => ExecCallKeepsApprovals(e, st, call);
    }
  }

  /** Recording decisions changes nothing that is compared, and forgets no earlier decision. */
  predicate OnlyDecided(a: Session, x: Session) {
    && x.sid == a.sid && x.messages == a.messages && x.journal == a.journal && x.results == a.results
    && Work(x.ledger) == Work(a.ledger) && DecidedIn(a, x)
  }

  lemma OneDecision(a: Session, put: Write, log: Write)
    requires put.PutApproval? && log.Log? && log.event.ApprovalLogged?
    ensures OnlyDecided(a, Apply(Apply(a, put), log))
  {
    hide Work;
    WorkSnoc(a.ledger, log.event);
    assert Work(a.ledger) + [] == Work(a.ledger);
  }

  lemma OnlyDecidedTransitive(a: Session, b: Session, c: Session)
    requires OnlyDecided(a, b) && OnlyDecided(b, c)
    ensures OnlyDecided(a, c)
  {
    hide Work;
  }

  lemma OnlyDecidedReflexive(a: Session)
    ensures OnlyDecided(a, a)
  {
    hide Work;
  }

  lemma {:induction false} DecisionsMatch(a: Session, rulings: seq<Ruling>)
    ensures OnlyDecided(a, ApplyAll(a, DecideWrites(rulings)))
    decreases |rulings|
  {
    hide ApplyAll, OnlyDecided;
    if rulings == [] {
      ApplyNone(a);
      OnlyDecidedReflexive(a);
    } else {
      var put, log := PutApproval(rulings[0].0, rulings[0].1), Log(ApprovalLogged(rulings[0].0, rulings[0].1));
      var b := Apply(Apply(a, put), log);
      ApplyAllConcat(a, [put, log], DecideWrites(rulings[1..]));
      ApplyTwo(a, put, log);
      OneDecision(a, put, log);
      DecisionsMatch(b, rulings[1..]);
      OnlyDecidedTransitive(a, b, ApplyAll(b, DecideWrites(rulings[1..])));
    }
  }

  lemma {:induction false} RoundsKeepDecisions<W(!new)>(e: Env<W>, st: St<W>, calls: seq<Call>,
                                                        rounds: seq<seq<Ruling>>)
    requires FreshKeys(st.db) && SameBatches(e) && forall p :: !e.cancelled(p)
    ensures DecidedIn(st.db, Rounds(e, st, calls, rounds).st.db)
    decreases |rounds|
  {
    hide ExecPending, ApplyAll, DecideWrites, FreshKeys, Work, SameBatches;
    var _, _ := StretchMatches(e, st, st, calls);
    var out := ExecPending(e, st, calls);
    if out.Paused? && rounds != [] {
      DecisionsMatch(out.st.db, rounds[0]);
      var db := ApplyAll(out.st.db, DecideWrites(rounds[0]));
      FreshSame(out.st.db, db);
      RoundsKeepDecisions(e, out.st.(db := db), Tail(db).value.pending, rounds[1..]);
    }
  }

  lemma FreshSame(a: Session, b: Session)
    requires FreshKeys(a) && a.journal == b.journal && a.results == b.results
    ensures FreshKeys(b) && Tail(a) == Tail(b)
  {
  }

  lemma {:induction false} RoundsMatchOnePass<W(!new)>(e: Env<W>, a: St<W>, b: St<W>, calls: seq<Call>,
                                                       rounds: seq<seq<Ruling>>)
    returns (b': St<W>, left: seq<Call>)
    requires Matches(a, b) && SameBatches(e) && forall p :: !e.cancelled(p)
    requires DecidedIn(Rounds(e, a, calls, rounds).st.db, b.db)
    ensures var x := Rounds(e, a, calls, rounds);
      && Matches(x.st, b') && ExecPending(e, b, calls) == ExecPending(e, b', left)
      && (if x.Finished? then left == [] else WaitsIn(x.st.db, left))
    decreases |rounds|
  {
    hide ExecPending, ApplyAll, DecideWrites, FreshKeys, Work, SameBatches;
    b', left := StretchMatches(e, a, b, calls);
    var out := ExecPending(e, a, calls);
    if out.Paused? && rounds != [] {
      DecisionsMatch(out.st.db, rounds[0]);
      var db := ApplyAll(out.st.db, DecideWrites(rounds[0]));
      FreshSame(out.st.db, db);
      var a' := out.st.(db := db);
      RoundsKeepDecisions(e, a', left, rounds[1..]);
      b', left := RoundsMatchOnePass(e, a', b', left, rounds[1..]);
    }
  }

  /** Any number of pauses, decisions and resumes without a crash: one pass that starts with the decisions
      made by then comes to the same messages in the same order, the same work recorded in the ledger
      and the same world, with exactly the calls before it that still wait. If the rounds have finished
      nothing waits, so the one pass has finished there. */
  lemma PausingRefinesOnePass<W(!new)>(e: Env<W>, st: St<W>, calls: seq<Call>, rounds: seq<seq<Ruling>>)
    returns (mid: St<W>, left: seq<Call>)
    requires ((ReadOnly(e) && Scheduled(e)) || Steady(e)) && forall p :: !e.cancelled(p)
    requires FreshKeys(st.db)
    ensures var end := Rounds(e, st, calls, rounds);
      var upFront := st.(db := st.db.(approvals := end.st.db.approvals));
      && ExecPending(e, upFront, calls) == ExecPending(e, mid, left)
      && mid.db.messages == end.st.db.messages && mid.world == end.st.world
      && Work(mid.db.ledger) == Work(end.st.db.ledger)
      && (if end.Finished? then left == [] && ExecPending(e, upFront, calls) == Finished(mid)
          else WaitsIn(end.st.db, left))
  {
    hide ApplyAll, DecideWrites, Rounds, Work, SameBatches, PassOver;
    BatchesAreSame(e);
    var end := Rounds(e, st, calls, rounds).st;
    var upFront := st.(db := st.db.(approvals := end.db.approvals));
    RoundsKeepDecisions(e, st, calls, rounds);
    mid, left := RoundsMatchOnePass(e, st, upFront, calls, rounds);
  }
}
