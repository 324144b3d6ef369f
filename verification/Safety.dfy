/** Safety of every run of the machine: the invariant is kept by each step, and with it
    at-most-once execution, the approval gate and the soundness of crash classification. */
module Safety {
  import opened Basics
  import opened Capability
  import opened State
  import opened KernelSpec
  import opened Machine

  // ------------------------------------------------- what due writes lead to

  /** Journal and results after the due writes do not depend on the other tables. */
  lemma {:induction false} JournalFrame(a: Session, b: Session, ws: seq<Write>)
    requires a.journal == b.journal && a.results == b.results
    ensures ApplyAll(a, ws).journal == ApplyAll(b, ws).journal
    ensures ApplyAll(a, ws).results == ApplyAll(b, ws).results
    decreases |ws|
  {
    if ws != [] {
      JournalFrame(Apply(a, ws[0]), Apply(b, ws[0]), ws[1..]);
    }
  }

  lemma ControlFrame(k: Setup, a: Session, b: Session, started: seq<Call>, c: Control)
    requires a.journal == b.journal && a.results == b.results
    requires ControlOk(k, a, started, c)
    ensures ControlOk(k, b, started, c)
  {
  }

  /** The stretches that end an operation leave a journal whose tail is no open intent. */
  lemma LeaveWritesAreClean(db: Session, reason: string, text: string, iteration: nat, calls: seq<Call>, error: string)
    ensures Classify(ApplyAll(db, StopWrites(reason))) == Clean
    ensures Classify(ApplyAll(db, FinalizeWrites(text, iteration))) == Clean
    ensures calls != [] ==> Classify(ApplyAll(db, PauseWrites(db.sid, calls))) == Clean
    ensures Classify(ApplyAll(db, [Log(ModelFailed(iteration, error))] + StopWrites(reason))) == Clean
  {
    hide ApplyAll;
    var stop := StopWrites(reason);
    ApplyTwo(db, stop[0], stop[1]);
    var fin := FinalizeWrites(text, iteration);
    ApplyThree(db, fin[0], fin[1], fin[2]);
    if calls != [] {
      var pause := PauseWrites(db.sid, calls);
      ApplyTwo(db, pause[0], pause[1]);
    }
    var failed := Log(ModelFailed(iteration, error));
    assert [failed] + stop == [failed, stop[0], stop[1]];
    ApplyThree(db, failed, stop[0], stop[1]);
  }

  lemma IntentOpens(k: Setup, db: Session, at: Session, call: Call)
    requires FreshKeys(db) && call.name in k.tools
    requires at.journal == db.journal && at.results == db.results
    ensures IntentOpen(k, Apply(at, IntentWrite(k, db, call)), call, NextKey(db, call), |db.journal| + 1)
  {
    assert NextKey(db, call) !in db.results;
  }

  lemma IntentIsOpen(k: Setup, db: Session, ahead: seq<Write>, call: Call)
    requires FreshKeys(db) && call.name in k.tools
    requires ahead == [] || (|ahead| == 1 && ahead[0].Log?)
    ensures IntentOpen(k, ApplyAll(db, ahead + [IntentWrite(k, db, call)]), call, NextKey(db, call), |db.journal| + 1)
  {
    hide ApplyAll, IntentOpen, IntentWrite, FreshKeys;
    var intent := IntentWrite(k, db, call);
    if ahead == [] {
      assert ahead + [intent] == [intent];
      ApplyOne(db, intent);
      IntentOpens(k, db, db, call);
    } else {
      assert ahead + [intent] == [ahead[0], intent];
      ApplyTwo(db, ahead[0], intent);
      IntentOpens(k, db, Apply(db, ahead[0]), call);
    }
  }

  // -------------------------------------------------- each step keeps the invariant

  /** Moving the program counter: what the new phase has to satisfy. */
  lemma MoveKeepsInv(k: Setup, s: Conf, ws: seq<Write>, c: Control)
    requires Inv(k, s)
    requires Sound(k, |s.db.journal|, s.started, ControlTodo(c))
    requires WritesOk(k, |s.db.journal|, s.started, ws)
    requires ControlOk(k, ApplyAll(s.db, ws), s.started, c)
    requires c.Tool? && Gated(k, c.call) ==> Approved(s.db, c.call)
    ensures Inv(k, s.(phase := Do(ws, c)))
  {
    hide Sound, WritesOk, ControlOk, AtMostOnce, GatesKept, RefsBelow, FreshKeys, ApplyAll, Approved, Classify;
  }

  lemma CommitKeepsInv(k: Setup, s: Conf)
    requires Inv(k, s) && s.phase.Do? && s.phase.ws != []
    ensures Inv(k, s.(db := Apply(s.db, s.phase.ws[0]), phase := Do(s.phase.ws[1..], s.phase.next)))
  {
    hide FreshKeys, AtMostOnce, GatesKept, RefsBelow, Sound, PausedOk, WritesOk, WriteOk, ControlOk, Approved, Gated;
    var w, n, started := s.phase.ws[0], |s.db.journal|, s.started;
    var db := Apply(s.db, w);
    FirstWriteOk(k, n, started, s.phase.ws);
    CommitRows(k, s.db, n, started, w);
    SoundGrows(k, n, |db.journal|, started, ControlTodo(s.phase.next));
    WritesGrow(k, n, |db.journal|, started, s.phase.ws);
    CommitPaused(k, s, w, Do(s.phase.ws[1..], s.phase.next));
    SameApprovals(k, s.db, db, started);
    if s.phase.next.Tool? {
      SameApproval(s.db, db, s.phase.next.call);
    }
  }

  lemma FirstWriteOk(k: Setup, n: nat, started: seq<Call>, ws: seq<Write>)
    requires WritesOk(k, n, started, ws) && ws != []
    ensures WriteOk(k, n, started, ws[0])
  {
    hide WriteOk;
  }

  /** A due row adds at most one record, saves only under a journaled key and decides nothing. */
  lemma CommitRows(k: Setup, db: Session, n: nat, started: seq<Call>, w: Write)
    requires FreshKeys(db) && n == |db.journal| && RefsBelow(started, n) && WriteOk(k, n, started, w)
    ensures var after := Apply(db, w);
      && FreshKeys(after) && n <= |after.journal| && RefsBelow(started, |after.journal|)
      && after.approvals == db.approvals && after.sid == db.sid
  {
    hide Sound;
  }

  /** With more records journaled, what was sound still is. */
  lemma SoundGrows(k: Setup, n: nat, m: nat, started: seq<Call>, calls: seq<Call>)
    requires n <= m && Sound(k, n, started, calls)
    ensures Sound(k, m, started, calls)
  {
    hide DistinctRefs, Unstarted;
  }

  lemma WritesGrow(k: Setup, n: nat, m: nat, started: seq<Call>, ws: seq<Write>)
    requires n <= m && WritesOk(k, n, started, ws) && ws != []
    ensures WritesOk(k, m, started, ws[1..])
  {
    hide WriteOk;
    forall i | 0 <= i < |ws[1..]|
      ensures WriteOk(k, m, started, ws[1..][i])
    {
      WriteGrows(k, n, m, started, ws[i + 1]);
    }
  }

  lemma WriteGrows(k: Setup, n: nat, m: nat, started: seq<Call>, w: Write)
    requires n <= m && WriteOk(k, n, started, w)
    ensures WriteOk(k, m, started, w)
  {
    hide Sound;
    if w.Journal? && w.rec.Awaiting? {
      SoundGrows(k, n, m, started, w.rec.pending);
    }
  }

  lemma CommitPaused(k: Setup, s: Conf, w: Write, phase: Phase)
    requires PausedOk(k, s) && WriteOk(k, |s.db.journal|, s.started, w)
    ensures PausedOk(k, s.(db := Apply(s.db, w), phase := phase))
  {
    hide Sound;
    var n, m := |s.db.journal|, |Apply(s.db, w).journal|;
    var tail := Tail(Apply(s.db, w));
    if tail.Some? && tail.value.Awaiting? {
      SoundGrows(k, n, m, s.started, tail.value.pending);
    }
  }

  lemma SameApprovals(k: Setup, a: Session, b: Session, started: seq<Call>)
    requires a.approvals == b.approvals && a.sid == b.sid && GatesKept(k, a, started)
    ensures GatesKept(k, b, started)
  {
  }

  lemma SameApproval(a: Session, b: Session, call: Call)
    requires a.approvals == b.approvals && a.sid == b.sid
    ensures Approved(a, call) == Approved(b, call)
  {
  }

  /** Decisions are added, never changed. */
  lemma MoreApprovals(k: Setup, a: Session, b: Session, started: seq<Call>)
    requires a.sid == b.sid
    requires forall aid :: aid in a.approvals ==> aid in b.approvals && b.approvals[aid] == a.approvals[aid]
    ensures GatesKept(k, a, started) ==> GatesKept(k, b, started)
    ensures forall call :: Approved(a, call) ==> Approved(b, call)
  {
    hide Gated;
  }

  lemma DecisionKeepsInv(k: Setup, s: Conf, aid: ApprovalId, decision: Decision, logged: bool)
    requires Inv(k, s)
    ensures var db := Apply(s.db, PutApproval(aid, decision));
            Inv(k, s.(db := if logged then Apply(db, Log(ApprovalLogged(aid, decision))) else db))
  {
    hide Classify, ApplyAll, FreshKeys, AtMostOnce, GatesKept, RefsBelow, Sound, WritesOk, ControlOk, Approved, Gated;
    var db := Apply(s.db, PutApproval(aid, decision));
    var db' := if logged then Apply(db, Log(ApprovalLogged(aid, decision))) else db;
    SameFresh(s.db, db');
    MoreApprovals(k, s.db, db', s.started);
    if s.phase.Do? {
      JournalFrame(s.db, db', s.phase.ws);
      ControlFrame(k, ApplyAll(s.db, s.phase.ws), ApplyAll(db', s.phase.ws), s.started, s.phase.next);
    }
  }

  lemma SameFresh(a: Session, b: Session)
    requires a.journal == b.journal && a.results == b.results
    ensures FreshKeys(a) == FreshKeys(b)
  {
  }

  lemma AnswerKeepsInv(k: Setup, g: Guards, s: Conf, r: Reply)
    requires Inv(k, s) && s.phase.Do? && s.phase.ws == [] && s.phase.next.Asking?
    ensures Inv(k, s.(phase := AtAnswer(g, s.phase.next.iteration, s.phase.next.attempt, s.phase.next.seqNo, r)))
  {
    hide Classify, NonIdempotent, Gated, ApplyAll;
    var c := s.phase.next;
    ApplyNone(s.db);
    var phase := AtAnswer(g, c.iteration, c.attempt, c.seqNo, r);
    match r {
      case Response(text, calls, _, _) =>
      case FatalError(error) => LeaveWritesAreClean(s.db, "model_error", "", c.iteration, [], error);
      case TransientError(error) =>
        LeaveWritesAreClean(s.db, "model_error", "", c.iteration, [], error);
        if c.attempt < g.modelRetries {
          ApplyOne(s.db, Log(ModelRetried(c.iteration, c.attempt, error)));
        }
    }
    MoveKeepsInv(k, s, phase.ws, phase.next);
  }

  lemma SoundTail(k: Setup, n: nat, started: seq<Call>, call: Call, rest: seq<Call>)
    requires Sound(k, n, started, [call] + rest)
    ensures Sound(k, n, started, rest)
  {
    var calls := [call] + rest;
    assert forall i {:trigger rest[i]} :: 0 <= i < |rest| ==> rest[i] == calls[i + 1];
  }

  lemma ExecNextKeepsInv(k: Setup, s: Conf, ahead: seq<Write>, iteration: nat, call: Call, rest: seq<Call>)
    requires Inv(k, s)
    requires Sound(k, |s.db.journal|, s.started, [call] + rest)
    requires ahead == [] || (|ahead| == 1 && ahead[0].Log?)
    requires Gated(k, call) ==> Approved(s.db, call)
    ensures Inv(k, s.(phase := ExecNext(k, s.db, ahead, iteration, call, rest)))
  {
    hide Classify, NonIdempotent, Gated, ApplyAll, ClassificationAllowed, IntentOpen, Sound, Approved;
    var phase := ExecNext(k, s.db, ahead, iteration, call, rest);
    SoundTail(k, |s.db.journal|, s.started, call, rest);
    if Denial(k, call.name).None? {
      IntentIsOpen(k, s.db, ahead, call);
    }
    MoveKeepsInv(k, s, phase.ws, phase.next);
  }

  lemma ExecKeepsInv(k: Setup, s: Conf, iteration: nat, calls: seq<Call>)
    requires Inv(k, s)
    requires Sound(k, |s.db.journal|, s.started, calls)
    ensures Inv(k, s.(phase := AtExec(k, s.db, iteration, calls)))
  {
    hide Classify, NonIdempotent, Denial, ApplyAll;
    var phase := AtExec(k, s.db, iteration, calls);
    if calls == [] {
      MoveKeepsInv(k, s, [], Top(iteration + 1));
    } else {
      assert calls == [calls[0]] + calls[1..];
      if EligibleRun(k, calls) < 2 {
        match GateOf(k, s.db, calls[0]) {
          case Undecided =>
            LeaveWritesAreClean(s.db, "", "", 0, calls, "");
            MoveKeepsInv(k, s, phase.ws, phase.next);
          case Refused(who) => MoveKeepsInv(k, s, phase.ws, phase.next);
          case Cleared(who) =>
            ExecNextKeepsInv(k, s, [ClearedWrite(s.db.sid, calls[0], who)], iteration, calls[0], calls[1..]);
          case Open => ExecNextKeepsInv(k, s, [], iteration, calls[0], calls[1..]);
        }
      }
    }
  }

  lemma StartsOnce(k: Setup, n: nat, started: seq<Call>, call: Call, rest: seq<Call>)
    requires AtMostOnce(k, started) && RefsBelow(started, n) && Sound(k, n, started, [call] + rest)
    ensures AtMostOnce(k, started + [call]) && RefsBelow(started + [call], n) && Sound(k, n, started + [call], rest)
  {
    hide NonIdempotent;
    var todo := [call] + rest;
    assert todo[0] == call && forall i :: 0 <= i < |rest| ==> rest[i] == todo[i + 1];
  }

  /** Starting a function: its journal intent is the tail, so no resume can pick the call up again. */
  lemma StartKeepsInv(k: Setup, s: Conf)
    requires Inv(k, s) && s.phase.Do? && s.phase.ws == [] && s.phase.next.Tool?
    ensures var c := s.phase.next;
            Inv(k, s.(phase := Running(c.iteration, c.call, c.key, c.seqNo, c.rest), started := s.started + [c.call]))
  {
    hide Classify, NonIdempotent, Gated, ApprovalIdOf, AtMostOnce, Sound;
    var c := s.phase.next;
    StartsOnce(k, |s.db.journal|, s.started, c.call, c.rest);
    assert Tail(s.db).value.ExecIntent?;
  }

  lemma PersistKeepsInv(k: Setup, s: Conf)
    requires Inv(k, s) && s.phase.Do? && s.phase.ws == []
    requires s.phase.next.Persisting? || s.phase.next.Saving?
    ensures Inv(k, AtProceed(k, s, s.phase.next).value)
  {
    hide Classify, NonIdempotent, Gated, ApplyAll;
    ApplyNone(s.db);
    var phase := AtProceed(k, s, s.phase.next).value.phase;
    var c := s.phase.next;
    if c.Persisting? && c.batch != [] && c.results != [] {
      ApplyOne(s.db, IntentWrite(k, s.db, c.batch[0]));
    }
    MoveKeepsInv(k, s, phase.ws, phase.next);
  }

  lemma ProceedKeepsInv(k: Setup, s: Conf)
    requires Inv(k, s) && s.phase.Do? && s.phase.ws == []
    requires AtProceed(k, s, s.phase.next).Some?
    ensures Inv(k, AtProceed(k, s, s.phase.next).value)
  {
    hide Classify, NonIdempotent, Gated, AtExec, DoneWrites, Denial;
    match s.phase.next {
      case Weigh(i, text, calls) =>
        LeaveWritesAreClean(s.db, "", text, i, [], "");
        var phase := AtProceed(k, s, s.phase.next).value.phase;
        MoveKeepsInv(k, s, phase.ws, phase.next);
      case Exec(i, calls) => ExecKeepsInv(k, s, i, calls);
      case Tool(i, call, key, seqNo, rest) => StartKeepsInv(k, s);
      case Persisting(i, batch, results, rest) => PersistKeepsInv(k, s);
      case Saving(i, call, key, seqNo, result, batch, results, rest) => PersistKeepsInv(k, s);
      case _ =>
    }
  }

  lemma BeginKeepsInv(k: Setup, s: Conf, i: nat)
    requires Inv(k, s) && s.phase.Batching? && i < |s.phase.batch|
    ensures Inv(k, s.(phase := s.phase.(begun := s.phase.begun + {i}), started := s.started + [s.phase.batch[i]]))
  {
    hide Classify, Denial;
    var call := s.phase.batch[i];
    assert BatchEligible(k, call) && !NonIdempotent(k, call) && !Gated(k, call);
  }

  lemma StepKeepsInv(k: Setup, g: Guards, s: Conf, l: Label)
    requires Inv(k, s) && Step(k, g, s, l).Some?
    ensures Inv(k, Step(k, g, s, l).value)
  {
    hide AtProceed, AtAnswer, Classify, NonIdempotent, Gated, ApplyAll, DoneWrites, RecoverWrites, AtMostOnce,
         GatesKept, FreshKeys;
    match l {
      case Crash => CrashKeepsInv(k, s);
      case Decided(aid, decision, logged) => DecisionKeepsInv(k, s, aid, decision, logged);
      case CallRun(text) => MoveKeepsInv(k, s, RunWrites(text), Top(1));
      case CallResume => MoveKeepsInv(k, s, [], Exec(0, Tail(s.db).value.pending));
      case CallRecover => RecoverKeepsInv(k, s);
      case Commit => CommitKeepsInv(k, s);
      case HaltHere(reason) =>
        LeaveWritesAreClean(s.db, reason, "", 0, [], "");
        MoveKeepsInv(k, s, StopWrites(reason), Leave("", reason));
      case Ask =>
        var intent := Journal(ModelIntent(s.phase.next.iteration));
        ApplyOne(s.db, intent);
        MoveKeepsInv(k, s, [intent], Asking(s.phase.next.iteration, 1, |s.db.journal| + 1));
      case Answer(reply) => AnswerKeepsInv(k, g, s, reply);
      case Refuse(reason) =>
        MoveKeepsInv(k, s, RefusalWrites(s.phase.next.text, reason), Top(s.phase.next.iteration + 1));
      case SeeCancel =>
        MoveKeepsInv(k, s, [Journal(Cancelled(s.phase.next.calls[0].name))], Top(s.phase.next.iteration + 1));
      case Proceed => ProceedKeepsInv(k, s);
      case Returns(result) => ReturnsKeepsInv(k, s, result);
      case Begin(i) => BeginKeepsInv(k, s, i);
      case Gather(results) =>
        MoveKeepsInv(k, s, [], Persisting(s.phase.iteration, s.phase.batch, results, s.phase.rest));
    }
  }

  lemma CrashKeepsInv(k: Setup, s: Conf)
    requires Inv(k, s)
    ensures Inv(k, s.(phase := Idle))
  {
  }

  lemma ReturnsKeepsInv(k: Setup, s: Conf, result: string)
    requires Inv(k, s) && s.phase.Running?
    ensures Inv(k, s.(phase := Do(DoneWrites(s.phase.call, s.phase.key, s.phase.seqNo, false, result, false),
                                  Exec(s.phase.iteration, s.phase.rest))))
  {
    hide Classify, NonIdempotent, Gated;
    MoveKeepsInv(k, s, DoneWrites(s.phase.call, s.phase.key, s.phase.seqNo, false, result, false),
                 Exec(s.phase.iteration, s.phase.rest));
  }

  lemma RecoverKeepsInv(k: Setup, s: Conf)
    requires Inv(k, s) && s.phase.Idle?
    ensures Inv(k, s.(phase := Do(RecoverWrites(s.db), Leave("", "recovered"))))
  {
    hide NonIdempotent, Gated;
    RecoverSettles(s.db);
    MoveKeepsInv(k, s, RecoverWrites(s.db), Leave("", "recovered"));
  }

  lemma {:induction false} StepsKeepInv(k: Setup, g: Guards, s: Conf, ls: seq<Label>)
    requires Inv(k, s) && Steps(k, g, s, ls).Some?
    ensures Inv(k, Steps(k, g, s, ls).value)
    decreases |ls|
  {
    if ls != [] {
      StepsKeepInv(k, g, s, ls[..|ls| - 1]);
      StepKeepsInv(k, g, Steps(k, g, s, ls[..|ls| - 1]).value, ls[|ls| - 1]);
    }
  }

  // ------------------------------------------------------------------ theorems

  predicate Reached(k: Setup, g: Guards, sid: string, ls: seq<Label>) {
    Steps(k, g, Boot(sid), ls).Some?
  }

  lemma ReachedInv(k: Setup, g: Guards, sid: string, ls: seq<Label>)
    requires Reached(k, g, sid, ls)
    ensures Inv(k, Steps(k, g, Boot(sid), ls).value)
  {
    StepsKeepInv(k, g, Boot(sid), ls);
  }

  /** Over every interleaving of run, resume, recover, decisions and crashes, no emitted
      non-idempotent call has its function started twice. */
  lemma StartedAtMostOnce(k: Setup, g: Guards, sid: string, ls: seq<Label>)
    requires Reached(k, g, sid, ls)
    ensures AtMostOnce(k, Steps(k, g, Boot(sid), ls).value.started)
  {
    ReachedInv(k, g, sid, ls);
  }

  /** No gated call's function starts unless its exact action was already approved, and none of
      them ever starts in a batch. */
  lemma GatedStartsAreApproved(k: Setup, g: Guards, sid: string, ls: seq<Label>, l: Label)
    requires Reached(k, g, sid, ls)
    requires Step(k, g, Steps(k, g, Boot(sid), ls).value, l).Some?
    ensures var s := Steps(k, g, Boot(sid), ls).value;
      var s' := Step(k, g, s, l).value;
      forall i :: |s.started| <= i < |s'.started| && Gated(k, s'.started[i]) ==>
        Approved(s.db, s'.started[i]) && s'.phase.Running? && s'.phase.call == s'.started[i]
  {
    hide Steps, ApplyAll, Classify, Denial, NonIdempotent;
    ReachedInv(k, g, sid, ls);
    var s := Steps(k, g, Boot(sid), ls).value;
    if l.Begin? {
      assert BatchEligible(k, s.phase.batch[l.i]);
    }
  }

  /** Later steps of any kind, crashes and contrary decisions included, leave a decision as it was. */
  lemma {:induction false} DecisionsAreFinal(k: Setup, g: Guards, s: Conf, ls: seq<Label>, aid: ApprovalId)
    requires Steps(k, g, s, ls).Some?
    requires aid in s.db.approvals
    ensures aid in Steps(k, g, s, ls).value.db.approvals
    ensures Steps(k, g, s, ls).value.db.approvals[aid] == s.db.approvals[aid]
    decreases |ls|
  {
    hide ApplyAll, AtExec, AtAnswer, DoneWrites, IntentWrite, RecoverWrites;
    if ls != [] {
      DecisionsAreFinal(k, g, s, ls[..|ls| - 1], aid);
    }
  }

  /** An operation that returned leaves a clean session behind, however it ended. */
  lemma ReturnedIsClean(k: Setup, g: Guards, sid: string, ls: seq<Label>)
    requires Reached(k, g, sid, ls)
    requires var p := Steps(k, g, Boot(sid), ls).value.phase; p.Do? && p.ws == [] && p.next.Leave?
    ensures Classify(Steps(k, g, Boot(sid), ls).value.db) == Clean
  {
    hide Steps, AtMostOnce, GatesKept, Sound, RefsBelow;
    ReachedInv(k, g, sid, ls);
    ApplyNone(Steps(k, g, Boot(sid), ls).value.db);
  }
}
