/** Greedy parallel batching refines one-at-a-time execution (scr/kernel.py, `_execute_pending`). */
module Batching {
  import opened Basics
  import opened Capability
  import opened State
  import opened KernelSpec

  /** The reference: the same loop without the batch branch. */
  function ExecSequential<W>(e: Env<W>, st: St<W>, calls: seq<Call>): Outcome<W>
    decreases |calls|
  {
    if calls == [] then Finished(st)
    else if e.cancelled(st.polls) then
      Finished(st.(db := Apply(st.db, Journal(Cancelled(calls[0].name))), polls := st.polls + 1))
    else
      match HandleFirst(e, st.(polls := st.polls + 1), calls)
      case Paused(st', aid) => Paused(st', aid)
      case Finished(st') => ExecSequential(e, st', calls[1..])
  }

  // ------------------------------------------------- equality up to the flag

  function EraseFlag(ev: Event): Event {
    if ev.ToolExec? then ev.(parallel := false) else ev
  }

  function EraseFlags(ledger: seq<Event>): (r: seq<Event>)
    ensures |r| == |ledger|
    ensures forall i :: 0 <= i < |r| ==> r[i] == EraseFlag(ledger[i])
  {
    seq(|ledger|, i requires 0 <= i < |ledger| => EraseFlag(ledger[i]))
  }

  /** The same rows, the ledger up to `parallel`. */
  predicate Same(a: Session, b: Session) {
    && a.sid == b.sid && a.status == b.status && a.messages == b.messages && a.journal == b.journal
    && a.results == b.results && a.approvals == b.approvals
    && EraseFlags(a.ledger) == EraseFlags(b.ledger)
  }

  predicate SameWrite(v: Write, w: Write) {
    v == w || (v.Log? && w.Log? && EraseFlag(v.event) == EraseFlag(w.event))
  }

  lemma ApplySame(a: Session, b: Session, v: Write, w: Write)
    requires Same(a, b) && SameWrite(v, w)
    ensures Same(Apply(a, v), Apply(b, w))
  {
    if v.Log? {
      var x, y := Apply(a, v).ledger, Apply(b, w).ledger;
      assert EraseFlags(x) == EraseFlags(a.ledger) + [EraseFlag(v.event)];
      assert EraseFlags(y) == EraseFlags(b.ledger) + [EraseFlag(w.event)];
    }
  }

  lemma {:induction false} ApplyAllSame(a: Session, b: Session, vs: seq<Write>, ws: seq<Write>)
    requires Same(a, b) && |vs| == |ws|
    requires forall i :: 0 <= i < |vs| ==> SameWrite(vs[i], ws[i])
    ensures Same(ApplyAll(a, vs), ApplyAll(b, ws))
    decreases |vs|
  {
    hide Same, SameWrite, Apply;
    if vs != [] {
      ApplySame(a, b, vs[0], ws[0]);
      ApplyAllSame(Apply(a, vs[0]), Apply(b, ws[0]), vs[1..], ws[1..]);
    }
  }

  lemma DoneSame(a: Session, b: Session, call: Call, key: IdemKey, seqNo: nat, cached: bool, result: string, p: bool,
                 q: bool)
    requires Same(a, b)
    ensures Same(ApplyAll(a, DoneWrites(call, key, seqNo, cached, result, p)),
                 ApplyAll(b, DoneWrites(call, key, seqNo, cached, result, q)))
  {
    hide Same, ApplyAll, IsToolError;
    ApplyAllSame(a, b, DoneWrites(call, key, seqNo, cached, result, p),
                 DoneWrites(call, key, seqNo, cached, result, q));
  }

  // ------------------------------------------------ each step is a congruence

  predicate SameSt<W(==)>(a: St<W>, b: St<W>) {
    Same(a.db, b.db) && a.world == b.world && a.attempts == b.attempts
  }

  lemma IntentSame(k: Setup, a: Session, b: Session, call: Call)
    requires Same(a, b)
    ensures NextKey(a, call) == NextKey(b, call)
    ensures Same(Apply(a, IntentWrite(k, a, call)), Apply(b, IntentWrite(k, b, call)))
  {
    ApplySame(a, b, IntentWrite(k, a, call), IntentWrite(k, b, call));
  }

  lemma ExecCallSame<W>(e: Env<W>, a: St<W>, b: St<W>, call: Call)
    requires SameSt(a, b)
    ensures SameSt(ExecCall(e, a, call), ExecCall(e, b, call))
  {
    hide ApplyAll, DoneWrites, CapDeniedWrites, IntentWrite, NextKey, ClassificationAllowed;
    var denial := Denial(e.setup, call.name);
    if denial.Some? {
      var ws := CapDeniedWrites(call, denial.value);
      ApplyAllSame(a.db, b.db, ws, ws);
    } else {
      IntentSame(e.setup, a.db, b.db, call);
      var key := NextKey(a.db, call);
      var x, y := Apply(a.db, IntentWrite(e.setup, a.db, call)), Apply(b.db, IntentWrite(e.setup, b.db, call));
      var cached := key in x.results;
      DoneSame(x, y, call, key, |x.journal|, cached,
               if cached then x.results[key] else e.fn(call.name, call.args, a.world).0, false, false);
    }
  }

  lemma HandleFirstSame<W>(e: Env<W>, a: St<W>, b: St<W>, calls: seq<Call>)
    requires SameSt(a, b) && calls != []
    ensures var x, y := HandleFirst(e, a, calls), HandleFirst(e, b, calls);
      && SameSt(x.st, y.st)
      && (x.Paused? <==> y.Paused?) && (x.Paused? ==> x.aid == y.aid)
  {
    hide ApplyAll, ExecCall, PauseWrites, RefusedWrites, ClearedWrite;
    var sid, call := a.db.sid, calls[0];
    match GateOf(e.setup, a.db, call) {
      case Undecided =>
        var ws := PauseWrites(sid, calls);
        ApplyAllSame(a.db, b.db, ws, ws);
      case Refused(who) =>
        var ws := RefusedWrites(sid, call, who);
        ApplyAllSame(a.db, b.db, ws, ws);
      case Cleared(who) =>
        var w := ClearedWrite(sid, call, who);
        ApplySame(a.db, b.db, w, w);
        ExecCallSame(e, a.(db := Apply(a.db, w)), b.(db := Apply(b.db, w)), call);
      case Open => ExecCallSame(e, a, b, call);
    }
  }

  // -------------------------------------------------------------- the batch

  /** Batch-eligible tools read the world without changing it. */
  ghost predicate ReadOnly<W(!new)>(e: Env<W>) {
    forall c: Call, w: W :: BatchEligible(e.setup, c) ==> e.fn(c.name, c.args, w).1 == w
  }

  /** Whatever the order, a read-only batch sees the world it started in. */
  lemma {:induction false} RunFnsReadOnly<W(!new)>(e: Env<W>, batch: seq<Call>, order: seq<nat>, world: W)
    requires ReadOnly(e) && forall i :: 0 <= i < |batch| ==> BatchEligible(e.setup, batch[i])
    requires forall i :: 0 <= i < |order| ==> order[i] < |batch|
    ensures var out := RunFns(e, batch, order, world);
      && out.1 == world
      && (forall i :: i in out.0 <==> i in order)
      && (forall i :: i in out.0 ==> i < |batch| && out.0[i] == e.fn(batch[i].name, batch[i].args, world).0)
    decreases |order|
  {
    hide BatchEligible;
    if order != [] {
      var n := |order| - 1;
      RunFnsReadOnly(e, batch, order[..n], world);
      assert order == order[..n] + [order[n]];
    }
  }

  lemma PersistSame<W>(e: Env<W>, a: Session, st: St<W>, call: Call)
    requires Same(a, st.db) && Denial(e.setup, call.name).None?
    requires e.fn(call.name, call.args, st.world).1 == st.world
    ensures Same(Persist(e.setup, a, call, e.fn(call.name, call.args, st.world).0), ExecCall(e, st, call).db)
    ensures ExecCall(e, st, call).world == st.world && ExecCall(e, st, call).attempts == st.attempts
  {
    hide ApplyAll, DoneWrites, IntentWrite, NextKey, Denial;
    IntentSame(e.setup, a, st.db, call);
    var key := NextKey(a, call);
    var x, y := Apply(a, IntentWrite(e.setup, a, call)), Apply(st.db, IntentWrite(e.setup, st.db, call));
    var cached := key in x.results;
    DoneSame(x, y, call, key, |x.journal|, cached,
             if cached then x.results[key] else e.fn(call.name, call.args, st.world).0, true, false);
  }

  /** Persisting the precomputed results matches executing the calls one at a time. */
  lemma {:induction false} BatchSame<W(!new)>(e: Env<W>, a: Session, st: St<W>, batch: seq<Call>,
                                              results: seq<string>, rest: seq<Call>)
    returns (st': St<W>)
    requires Same(a, st.db) && |batch| == |results| && ReadOnly(e)
    requires forall p :: !e.cancelled(p)
    requires forall i :: 0 <= i < |batch| ==>
      BatchEligible(e.setup, batch[i]) && results[i] == e.fn(batch[i].name, batch[i].args, st.world).0
    ensures Same(PersistAll(e.setup, a, batch, results), st'.db)
    ensures st'.world == st.world && st'.attempts == st.attempts
    ensures ExecSequential(e, st, batch + rest) == ExecSequential(e, st', rest)
    decreases |batch|
  {
    hide Same, Persist, ExecCall, Denial;
    if batch == [] {
      assert batch + rest == rest;
      st' := st;
    } else {
      var polled, calls := st.(polls := st.polls + 1), batch + rest;
      var call := calls[0];
      assert call == batch[0] && calls[1..] == batch[1..] + rest;
      assert BatchEligible(e.setup, call) && GateOf(e.setup, st.db, call) == Open;
      PersistSame(e, a, polled, call);
      var next := ExecCall(e, polled, call);
      st' := BatchSame(e, Persist(e.setup, a, call, results[0]), next, batch[1..], results[1..], rest);
    }
  }

  /** The first n calls as one batch, and one at a time. */
  lemma BatchLikeSequence<W(!new)>(e: Env<W>, a: St<W>, b: St<W>, calls: seq<Call>, n: nat) returns (b': St<W>)
    requires ReadOnly(e) && Scheduled(e) && SameSt(a, b) && forall p :: !e.cancelled(p)
    requires n <= |calls| && forall i :: 0 <= i < n ==> BatchEligible(e.setup, calls[i])
    ensures SameSt(RunBatch(e, a.(polls := a.polls + 1), calls[..n]), b')
    ensures ExecSequential(e, b, calls) == ExecSequential(e, b', calls[n..])
  {
    hide Same, HandleFirst, PersistAll, RunFns, BatchEligible, ExecSequential;
    var polls := a.polls + 1;
    var batch, order := calls[..n], e.schedule(polls, n);
    assert IsSchedule(e.schedule(polls, n), n);
    RunFnsReadOnly(e, batch, order, a.world);
    var out := RunFns(e, batch, order, a.world);
    b' := BatchSame(e, a.db, b, batch, Collect(out.0, n), calls[n..]);
    assert batch + calls[n..] == calls;
  }

  /** For any calls, tools and scheduler: the batched loop ends as the sequential one does, paused at
      the same gate or finished, with the same messages, journal, keys, results, approvals and world,
      and the same ledger up to the `parallel` flag. */
  lemma {:induction false} BatchingRefinesSequential<W(!new)>(e: Env<W>, a: St<W>, b: St<W>, calls: seq<Call>)
    requires ReadOnly(e) && forall p :: !e.cancelled(p)
    requires Scheduled(e)
    requires SameSt(a, b)
    ensures var x, y := ExecPending(e, a, calls), ExecSequential(e, b, calls);
      && SameSt(x.st, y.st)
      && (x.Paused? <==> y.Paused?) && (x.Paused? ==> x.aid == y.aid)
    decreases |calls|
  {
    hide Same, HandleFirst, RunBatch, BatchEligible, Scheduled, ReadOnly;
    if calls != [] {
      var n := EligibleRun(e.setup, calls);
      var polled := a.(polls := a.polls + 1);
      if n >= 2 {
        var b' := BatchLikeSequence(e, a, b, calls, n);
        BatchingRefinesSequential(e, RunBatch(e, polled, calls[..n]), b', calls[n..]);
      } else {
        HandleFirstSame(e, polled, b.(polls := b.polls + 1), calls);
        var x, y := HandleFirst(e, polled, calls), HandleFirst(e, b.(polls := b.polls + 1), calls);
        if x.Finished? {
          BatchingRefinesSequential(e, x.st, y.st, calls[1..]);
        }
      }
    }
  }
}
