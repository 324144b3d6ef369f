/** What recovery reports at every crash point (scr/kernel.py, `recover`): for each place of the kernel's
    code, and each row it is about to commit, the status that a crash there leaves behind. It holds in
    every reachable state, so for sequential and for batched calls, with decisions arriving between any
    two writes and with any earlier crashes. */
module CrashPoints {
  import opened Basics
  import opened State
  import opened KernelSpec
  import opened Machine
  import opened Safety

  // ------------------------------------------------------------------ the table

  /** An intent without a saved result. */
  function Unsaved(k: Setup, tool: string): Status {
    if tool in k.tools && k.tools[tool].idempotent then SafeReissue else Quarantined
  }

  /** With every due row committed. A batched call is idempotent. */
  function ControlPoint(k: Setup, c: Control): Status {
    match c
    case Asking(_, _, _) => ReissueModelCall
    case Tool(_, call, _, _, _) => Unsaved(k, call.name)
    case Saving(_, _, _, _, _, _, _, _) => SafeReissue
    case _ => Clean
  }

  /** Just before this record. None where the kernel may find any tail (`run`) or either of two (a stop). */
  function RecordPoint(rec: Record): Option<Status> {
    match rec
    case Assemble => None
    case Stopped(_) => None
    case ModelDone(_, _, _) => Some(ReissueModelCall)
    case ExecDone(_, _, _) => Some(Resumed)
    case NeedsReview(_, _) => Some(Quarantined)
    case Recovered(action) =>
      if action == "safe_reissue" then Some(SafeReissue)
      else if action == "reissue_model_call" then Some(ReissueModelCall)
      else None
    case _ => Some(Clean)
  }

  /** Just before this row. */
  function WritePoint(k: Setup, w: Write): Option<Status> {
    match w
    case Journal(rec) => RecordPoint(rec)
    case PutResult(key, _) => Some(Unsaved(k, key.tool))
    case Post(msg) => if msg.UserMsg? then None else Some(Clean)
    case Log(event) => if event.ModelRetried? || event.ModelFailed? then Some(ReissueModelCall) else Some(Clean)
    case PutApproval(_, _) => None
    case SetStatus(_) => Some(Clean)
  }

  /** What a crash in this phase leaves behind. While batched functions run, nothing is journaled yet. */
  function AtCrash(k: Setup, p: Phase): Option<Status> {
    match p
    case Idle => None
    case Running(_, call, _, _, _) => Some(Unsaved(k, call.name))
    case Batching(_, _, _, _) => Some(Clean)
    case Do(ws, c) => if ws == [] then Some(ControlPoint(k, c)) else WritePoint(k, ws[0])
  }

  /** Whose intent, or confirmation, the journal ends in. */
  predicate TailIsOf(db: Session, p: Phase) {
    match p
    case Running(_, call, key, _, _) => TailIntent(db, key) && key.tool == call.name && key !in db.results
    case Do(ws, c) =>
      if ws == [] then
        && (c.Tool? ==> TailIntent(db, c.key) && c.key.tool == c.call.name && c.key !in db.results)
        && (c.Saving? ==> TailIntent(db, c.key) && c.key.tool == c.call.name && c.key !in db.results)
      else
        && (ws[0].PutResult? ==> TailIntent(db, ws[0].key) && ws[0].key !in db.results)
        && (ws[0].Journal? && ws[0].rec.ExecDone? ==> TailIntent(db, ws[0].rec.key) && ws[0].rec.key in db.results)
        && (ws[0].Log? && ws[0].event.ToolExec? ==> TailDone(db, ws[0].event.key))
    case _ => true
  }

  predicate TailIntent(db: Session, key: IdemKey) {
    var tail := Tail(db);
    tail.Some? && tail.value.ExecIntent? && tail.value.key == key
  }

  predicate TailDone(db: Session, key: IdemKey) {
    var tail := Tail(db);
    tail.Some? && tail.value.ExecDone? && tail.value.key == key
  }

  // ------------------------------------------------------------------ the invariant

  predicate WriteFits(k: Setup, db: Session, w: Write) {
    && (WritePoint(k, w).Some? ==> Classify(db) == WritePoint(k, w).value)
    && (w.PutResult? ==> TailIntent(db, w.key) && w.key !in db.results)
    && (w.Journal? && w.rec.ExecDone? ==> TailIntent(db, w.rec.key) && w.rec.key in db.results)
    && (w.Log? && w.event.ToolExec? ==> TailDone(db, w.event.key))
  }

  /** Each due row fits the rows that will be there before it. */
  predicate AllFit(k: Setup, db: Session, ws: seq<Write>)
    decreases |ws|
  {
    ws == [] || (WriteFits(k, db, ws[0]) && AllFit(k, Apply(db, ws[0]), ws[1..]))
  }

  predicate Eligible(k: Setup, batch: seq<Call>) {
    forall i :: 0 <= i < |batch| ==> BatchEligible(k, batch[i])
  }

  predicate ControlFits(k: Setup, db: Session, c: Control) {
    && Classify(db) == ControlPoint(k, c)
    && (c.Tool? ==> TailIntent(db, c.key) && c.key.tool == c.call.name && c.key !in db.results)
    && (c.Saving? ==> TailIntent(db, c.key) && c.key.tool == c.call.name && c.key !in db.results
                      && Unsaved(k, c.call.name) == SafeReissue && Eligible(k, c.batch))
    && (c.Persisting? ==> Eligible(k, c.batch))
  }

  predicate Fits(k: Setup, s: Conf) {
    match s.phase
    case Idle => true
    case Running(_, call, key, _, _) =>
      TailIntent(s.db, key) && key.tool == call.name && key !in s.db.results && Classify(s.db) == Unsaved(k, call.name)
    case Batching(_, batch, _, _) => Classify(s.db) == Clean && Eligible(k, batch)
    case Do(ws, c) => AllFit(k, s.db, ws) && ControlFits(k, ApplyAll(s.db, ws), c)
  }

  // ------------------------------------------------------------------ lists of rows

  lemma FitsOne(k: Setup, db: Session, a: Write)
    requires WriteFits(k, db, a)
    ensures AllFit(k, db, [a]) && ApplyAll(db, [a]) == Apply(db, a)
  {
    assert [a][1..] == [];
  }

  lemma {:induction false} FitsConcat(k: Setup, db: Session, a: seq<Write>, b: seq<Write>)
    requires AllFit(k, db, a) && AllFit(k, ApplyAll(db, a), b)
    ensures AllFit(k, db, a + b) && ApplyAll(db, a + b) == ApplyAll(ApplyAll(db, a), b)
    decreases |a|
  {
    hide WriteFits;
    if a == [] {
      assert a + b == b;
    } else {
      assert (a + b)[1..] == a[1..] + b;
      FitsConcat(k, Apply(db, a[0]), a[1..], b);
    }
  }

  /** Rows outside journal and results that fit now fit later. */
  predicate Quiet(k: Setup, db: Session, w: Write) {
    (w.Post? || w.Log? || w.SetStatus?) && WriteFits(k, db, w)
  }

  lemma {:induction false} QuietFits(k: Setup, db: Session, ws: seq<Write>)
    requires forall i :: 0 <= i < |ws| ==> Quiet(k, db, ws[i])
    ensures AllFit(k, db, ws) && ApplyAll(db, ws).journal == db.journal && ApplyAll(db, ws).results == db.results
    ensures ApplyAll(db, ws).sid == db.sid
    decreases |ws|
  {
    if ws != [] {
      var next := Apply(db, ws[0]);
      assert Quiet(k, db, ws[0]);
      forall i | 0 <= i < |ws[1..]|
        ensures Quiet(k, next, ws[1..][i])
      {
        assert ws[1..][i] == ws[i + 1];
        SameRowsFit(k, db, next, ws[i + 1]);
      }
      QuietFits(k, next, ws[1..]);
    }
  }

  lemma SameRowsFit(k: Setup, a: Session, b: Session, w: Write)
    requires a.journal == b.journal && a.results == b.results
    ensures WriteFits(k, a, w) == WriteFits(k, b, w)
  {
    hide WritePoint;
  }

  lemma {:induction false} FrameFits(k: Setup, a: Session, b: Session, ws: seq<Write>)
    requires a.journal == b.journal && a.results == b.results && AllFit(k, a, ws)
    ensures AllFit(k, b, ws)
    decreases |ws|
  {
    hide WriteFits;
    if ws != [] {
      SameRowsFit(k, a, b, ws[0]);
      FrameFits(k, Apply(a, ws[0]), Apply(b, ws[0]), ws[1..]);
    }
  }

  lemma ControlFrameFits(k: Setup, a: Session, b: Session, c: Control)
    requires a.journal == b.journal && a.results == b.results && ControlFits(k, a, c)
    ensures ControlFits(k, b, c)
  {
    hide ControlPoint, Eligible;
  }

  /** A record that opens nothing closes everything. */
  lemma ClosingRecord(db: Session, rec: Record)
    requires !rec.ModelIntent? && !rec.ExecIntent?
    ensures Classify(Apply(db, Journal(rec))) == Clean
  {
  }

  /** A row that may follow this closing record. */
  predicate After(k: Setup, rec: Record, w: Write) {
    && (w.Post? || w.Log? || w.SetStatus?)
    && (WritePoint(k, w).Some? ==> WritePoint(k, w) == Some(Clean))
    && (w.Log? && w.event.ToolExec? ==> rec.ExecDone? && rec.key == w.event.key)
  }

  /** [quiet rows] + [a closing record] + [quiet rows], the shape of most stretches. */
  lemma ClosingFits(k: Setup, db: Session, ahead: seq<Write>, rec: Record, tail: seq<Write>)
    requires !rec.ModelIntent? && !rec.ExecIntent?
    requires forall i :: 0 <= i < |ahead| ==> Quiet(k, db, ahead[i])
    requires WriteFits(k, db, Journal(rec))
    requires forall i :: 0 <= i < |tail| ==> After(k, rec, tail[i])
    ensures var ws := ahead + [Journal(rec)] + tail; AllFit(k, db, ws) && Classify(ApplyAll(db, ws)) == Clean
  {
    hide AllFit, ApplyAll, WritePoint, Classify;
    QuietFits(k, db, ahead);
    var at := ApplyAll(db, ahead);
    SameRowsFit(k, db, at, Journal(rec));
    FitsOne(k, at, Journal(rec));
    FitsConcat(k, db, ahead, [Journal(rec)]);
    var done := Apply(at, Journal(rec));
    ClosingRecord(at, rec);
    assert Tail(done) == Some(rec);
    QuietFits(k, done, tail);
    FitsConcat(k, db, ahead + [Journal(rec)], tail);
    SameTail(done, ApplyAll(done, tail));
  }

  lemma SameTail(a: Session, b: Session)
    requires a.journal == b.journal && a.results == b.results
    ensures Classify(a) == Classify(b) && Tail(a) == Tail(b)
  {
  }

  // ------------------------------------------------------------------ one call

  lemma IntentIsUnsaved(k: Setup, db: Session, ahead: seq<Write>, call: Call)
    requires FreshKeys(db) && Classify(db) == Clean && call.name in k.tools
    requires forall i :: 0 <= i < |ahead| ==> Quiet(k, db, ahead[i])
    ensures var ws, at := ahead + [IntentWrite(k, db, call)], ApplyAll(db, ahead + [IntentWrite(k, db, call)]);
      && AllFit(k, db, ws) && Classify(at) == Unsaved(k, call.name)
      && TailIntent(at, NextKey(db, call)) && NextKey(db, call) !in at.results
  {
    hide AllFit, ApplyAll;
    QuietFits(k, db, ahead);
    var at, intent := ApplyAll(db, ahead), IntentWrite(k, db, call);
    SameRowsFit(k, db, at, intent);
    FitsOne(k, at, intent);
    FitsConcat(k, db, ahead, [intent]);
    assert NextKey(db, call) !in db.results;
  }

  /** From a returned function (or a cached answer) to the folded result. */
  lemma DoneFits(k: Setup, db: Session, call: Call, key: IdemKey, seqNo: nat, cached: bool, result: string,
                 parallel: bool)
    requires TailIntent(db, key) && (cached <==> key in db.results)
    requires Classify(db) == (if cached then Resumed else Unsaved(k, key.tool))
    ensures var ws := DoneWrites(call, key, seqNo, cached, result, parallel);
      AllFit(k, db, ws) && Classify(ApplyAll(db, ws)) == Clean
  {
    hide AllFit, ApplyAll, IsToolError, Unsaved;
    var put := if cached then [] else [PutResult(key, result)];
    var rec := ExecDone(seqNo, key, false);
    var tail := [Log(ToolExec(call.name, call.args, result, key, parallel))]
      + (if IsToolError(result) then [Log(ToolError(call.name, result))] else [])
      + [Post(ToolMsg(call.name, call.id, result))];
    var ws := DoneWrites(call, key, seqNo, cached, result, parallel);
    assert ws == put + ([Journal(rec)] + tail);
    var saved := ApplyAll(db, put);
    SaveFits(k, db, key, cached, result);
    assert [] + [Journal(rec)] + tail == [Journal(rec)] + tail;
    ClosingFits(k, saved, [], rec, tail);
    FitsConcat(k, db, put, [Journal(rec)] + tail);
  }

  lemma SaveFits(k: Setup, db: Session, key: IdemKey, cached: bool, result: string)
    requires TailIntent(db, key) && (cached <==> key in db.results)
    requires Classify(db) == (if cached then Resumed else Unsaved(k, key.tool))
    ensures var put := if cached then [] else [PutResult(key, result)];
      var saved := ApplyAll(db, put);
      AllFit(k, db, put) && TailIntent(saved, key) && key in saved.results && Classify(saved) == Resumed
  {
    if cached {
      ApplyNone(db);
    } else {
      FitsOne(k, db, PutResult(key, result));
    }
  }

  // ------------------------------------------------------------------ each step

  lemma ExecFits(k: Setup, s: Conf, iteration: nat, calls: seq<Call>)
    requires FreshKeys(s.db) && Classify(s.db) == Clean
    ensures Fits(k, s.(phase := AtExec(k, s.db, iteration, calls)))
  {
    hide AllFit, ApplyAll, Denial, FreshKeys, BatchEligible, Classify;
    ApplyNone(s.db);
    assert AllFit(k, s.db, []) by { NothingFits(k, s.db); }
    if calls != [] && EligibleRun(k, calls) < 2 {
      var call, rest := calls[0], calls[1..];
      match GateOf(k, s.db, call) {
        case Undecided =>
          var ws := PauseWrites(s.db.sid, calls);
          ClosingFits(k, s.db, [], ws[0].rec, [ws[1]]);
          assert [] + [ws[0]] + [ws[1]] == ws;
        case Refused(who) => QuietMoveFits(k, s, RefusedWrites(s.db.sid, call, who), Exec(iteration, rest));
        case Cleared(who) => ExecNextFits(k, s, [ClearedWrite(s.db.sid, call, who)], iteration, call, rest);
        case Open => ExecNextFits(k, s, [], iteration, call, rest);
      }
    }
  }

  lemma NothingFits(k: Setup, db: Session)
    ensures AllFit(k, db, [])
  {
  }

  /** Rows outside journal and results, from a clean place to a clean place. */
  lemma QuietMoveFits(k: Setup, s: Conf, ws: seq<Write>, c: Control)
    requires Classify(s.db) == Clean && forall i :: 0 <= i < |ws| ==> Quiet(k, s.db, ws[i])
    requires c.Exec? || c.Top?
    ensures Fits(k, s.(phase := Do(ws, c)))
  {
    hide AllFit, ApplyAll, Quiet;
    QuietFits(k, s.db, ws);
    SameTail(s.db, ApplyAll(s.db, ws));
  }

  lemma ExecNextFits(k: Setup, s: Conf, ahead: seq<Write>, iteration: nat, call: Call, rest: seq<Call>)
    requires FreshKeys(s.db) && Classify(s.db) == Clean
    requires forall i :: 0 <= i < |ahead| ==> Quiet(k, s.db, ahead[i])
    ensures Fits(k, s.(phase := ExecNext(k, s.db, ahead, iteration, call, rest)))
  {
    hide AllFit, ApplyAll, FreshKeys, Classify;
    var denial := Denial(k, call.name);
    if denial.Some? {
      var ws := ahead + CapDeniedWrites(call, denial.value);
      assert forall i :: 0 <= i < |ws| ==> Quiet(k, s.db, ws[i]);
      QuietMoveFits(k, s, ws, Exec(iteration, rest));
    } else {
      IntentIsUnsaved(k, s.db, ahead, call);
    }
  }

  lemma AnswerFits(k: Setup, g: Guards, s: Conf, reply: Reply)
    requires Fits(k, s) && s.phase.Do? && s.phase.ws == [] && s.phase.next.Asking?
    ensures Fits(k, s.(phase := AtAnswer(g, s.phase.next.iteration, s.phase.next.attempt, s.phase.next.seqNo, reply)))
  {
    hide AllFit, ApplyAll, Classify;
    ApplyNone(s.db);
    var c := s.phase.next;
    match reply {
      case Response(text, calls, _, _) =>
        var ws := AnsweredWrites(c.iteration, c.seqNo, reply);
        ClosingFits(k, s.db, [], ws[0].rec, [ws[1]]);
        assert [] + [ws[0]] + [ws[1]] == ws;
      case FatalError(error) => FailFits(k, s.db, c.iteration, error);
      case TransientError(error) =>
        FailFits(k, s.db, c.iteration, error);
        var w := Log(ModelRetried(c.iteration, c.attempt, error));
        FitsOne(k, s.db, w);
        SameTail(s.db, Apply(s.db, w));
    }
  }

  lemma FailFits(k: Setup, db: Session, iteration: nat, error: string)
    requires Classify(db) == ReissueModelCall
    ensures var ws := [Log(ModelFailed(iteration, error))] + StopWrites("model_error");
      AllFit(k, db, ws) && Classify(ApplyAll(db, ws)) == Clean
  {
    hide AllFit, ApplyAll, Classify;
    var stop := StopWrites("model_error");
    var failed := [Log(ModelFailed(iteration, error))];
    ClosingFits(k, db, failed, stop[0].rec, [stop[1]]);
    assert failed + [stop[0]] + [stop[1]] == failed + stop;
  }

  lemma ProceedFits(k: Setup, s: Conf)
    requires Inv(k, s) && Fits(k, s) && s.phase.Do? && s.phase.ws == [] && AtProceed(k, s, s.phase.next).Some?
    ensures Fits(k, AtProceed(k, s, s.phase.next).value)
  {
    hide AllFit, ApplyAll, AtExec, DoneWrites, Classify, BatchEligible, PhaseOk, PausedOk, AtMostOnce, GatesKept, Sound;
    ApplyNone(s.db);
    NothingFits(k, s.db);
    match s.phase.next {
      case Weigh(i, text, calls) =>
        if calls == [] {
          var ws := FinalizeWrites(text, i);
          ClosingFits(k, s.db, [ws[0]], ws[1].rec, [ws[2]]);
          assert [ws[0]] + [ws[1]] + [ws[2]] == ws;
        } else {
          QuietMoveFits(k, s, AssistantText(text), Exec(i, calls));
        }
      case Exec(i, calls) => ExecFits(k, s, i, calls);
      case Tool(i, call, key, seqNo, rest) =>
      case Persisting(i, batch, results, rest) =>
        if batch != [] && results != [] {
          assert BatchEligible(k, batch[0]) && Eligible(k, batch[1..]);
          EligibleIsIdempotent(k, batch[0]);
          assert [] + [IntentWrite(k, s.db, batch[0])] == [IntentWrite(k, s.db, batch[0])];
          IntentIsUnsaved(k, s.db, [], batch[0]);
        }
      case Saving(i, call, key, seqNo, result, batch, results, rest) =>
        DoneFits(k, s.db, call, key, seqNo, false, result, true);
      case _ =>
    }
  }

  lemma EligibleIsIdempotent(k: Setup, call: Call)
    requires BatchEligible(k, call)
    ensures call.name in k.tools && Unsaved(k, call.name) == SafeReissue
  {
  }

  lemma RecoverFits(k: Setup, s: Conf)
    ensures Fits(k, s.(phase := Do(RecoverWrites(s.db), Leave("", "recovered"))))
  {
    hide AllFit, ApplyAll;
    var ws := RecoverWrites(s.db);
    if ws == [] {
      ApplyNone(s.db);
      NothingFits(k, s.db);
    } else {
      ClosingFits(k, s.db, [], ws[0].rec, ws[1..]);
      assert [] + [Journal(ws[0].rec)] + ws[1..] == ws;
    }
  }

  lemma CommitFits(k: Setup, s: Conf)
    requires Fits(k, s) && s.phase.Do? && s.phase.ws != []
    ensures Fits(k, s.(db := Apply(s.db, s.phase.ws[0]), phase := Do(s.phase.ws[1..], s.phase.next)))
  {
    hide WriteFits, ControlFits;
  }

  lemma DecisionFits(k: Setup, s: Conf, db: Session)
    requires Fits(k, s) && db.journal == s.db.journal && db.results == s.db.results
    ensures Fits(k, s.(db := db))
  {
    hide AllFit, ApplyAll, ControlFits, Eligible;
    SameTail(s.db, db);
    if s.phase.Do? {
      FrameFits(k, s.db, db, s.phase.ws);
      JournalFrame(s.db, db, s.phase.ws);
      ControlFrameFits(k, ApplyAll(s.db, s.phase.ws), ApplyAll(db, s.phase.ws), s.phase.next);
    }
  }

  /** The other moves that end in a record and quiet rows. */
  lemma StopFits(k: Setup, s: Conf, reason: string)
    requires Classify(s.db) == Clean
    ensures Fits(k, s.(phase := Do(StopWrites(reason), Leave("", reason))))
  {
    hide AllFit, ApplyAll, Classify;
    var stop := StopWrites(reason);
    ClosingFits(k, s.db, [], stop[0].rec, [stop[1]]);
    assert [] + [stop[0]] + [stop[1]] == stop;
  }

  lemma RunFits(k: Setup, s: Conf, text: string)
    ensures Fits(k, s.(phase := Do(RunWrites(text), Top(1))))
  {
    hide AllFit, ApplyAll, Classify;
    var ws := RunWrites(text);
    ClosingFits(k, s.db, [ws[0]], Assemble, []);
    assert [ws[0]] + [Journal(Assemble)] + [] == ws;
  }

  lemma AskFits(k: Setup, s: Conf, iteration: nat, seqNo: nat)
    requires Classify(s.db) == Clean
    ensures Fits(k, s.(phase := Do([Journal(ModelIntent(iteration))], Asking(iteration, 1, seqNo))))
  {
    hide AllFit, ApplyAll;
    FitsOne(k, s.db, Journal(ModelIntent(iteration)));
  }

  lemma CancelFits(k: Setup, s: Conf, name: string, iteration: nat)
    requires Classify(s.db) == Clean
    ensures Fits(k, s.(phase := Do([Journal(Cancelled(name))], Top(iteration))))
  {
    hide AllFit, ApplyAll;
    FitsOne(k, s.db, Journal(Cancelled(name)));
  }

  lemma RefuseFits(k: Setup, s: Conf, text: string, reason: string, iteration: nat)
    requires Classify(s.db) == Clean
    ensures Fits(k, s.(phase := Do(RefusalWrites(text, reason), Top(iteration))))
  {
    hide Classify;
    QuietMoveFits(k, s, RefusalWrites(text, reason), Top(iteration));
  }

  lemma StepFits(k: Setup, g: Guards, s: Conf, l: Label)
    requires Inv(k, s) && Fits(k, s) && Step(k, g, s, l).Some?
    ensures Fits(k, Step(k, g, s, l).value)
  {
    hide Inv, AllFit, ApplyAll, AtProceed, AtAnswer, DoneWrites, RecoverWrites, StopWrites, RefusalWrites, RunWrites,
         Classify, BatchEligible;
    ApplyNone(s.db);
    NothingFits(k, s.db);
    match l {
      case Decided(aid, decision, logged) => DecisionFits(k, s, Step(k, g, s, l).value.db);
      case CallRun(text) => RunFits(k, s, text);
      case CallResume => PausedIsClean(s.db);
      case CallRecover => RecoverFits(k, s);
      case Commit => CommitFits(k, s);
      case HaltHere(reason) => StopFits(k, s, reason);
      case Ask => AskFits(k, s, s.phase.next.iteration, |s.db.journal| + 1);
      case Answer(reply) => AnswerFits(k, g, s, reply);
      case Refuse(reason) => RefuseFits(k, s, s.phase.next.text, reason, s.phase.next.iteration + 1);
      case SeeCancel => CancelFits(k, s, s.phase.next.calls[0].name, s.phase.next.iteration + 1);
      case Proceed => ProceedFits(k, s);
      case Returns(result) => DoneFits(k, s.db, s.phase.call, s.phase.key, s.phase.seqNo, false, result, false);
      case _ =>
    }
  }

  lemma PausedIsClean(db: Session)
    requires Tail(db).Some? && Tail(db).value.Awaiting?
    ensures Classify(db) == Clean
  {
  }

  lemma {:induction false} ReachedFits(k: Setup, g: Guards, sid: string, ls: seq<Label>)
    requires Reached(k, g, sid, ls)
    ensures Fits(k, Steps(k, g, Boot(sid), ls).value)
    decreases |ls|
  {
    hide Fits, Step, Inv;
    if ls == [] {
      BootFits(k, sid);
    } else {
      var n := |ls| - 1;
      ReachedFits(k, g, sid, ls[..n]);
      ReachedInv(k, g, sid, ls[..n]);
      StepFits(k, g, Steps(k, g, Boot(sid), ls[..n]).value, ls[n]);
    }
  }

  lemma BootFits(k: Setup, sid: string)
    ensures Fits(k, Boot(sid))
  {
  }

  /** In every reachable state, whatever the past: recovery after a crash there reports what the table
      says, about the call that the code was handling. A call with an open intent and no saved result is
      quarantined if it is not idempotent and safe to reissue if it is; from the saved result to its
      confirmation it is resumed; from then on the session is clean. */
  lemma CrashPointsOfACall(k: Setup, g: Guards, sid: string, ls: seq<Label>)
    requires Reached(k, g, sid, ls)
    ensures var s := Steps(k, g, Boot(sid), ls).value;
      && (AtCrash(k, s.phase).Some? ==> Classify(s.db) == AtCrash(k, s.phase).value)
      && TailIsOf(s.db, s.phase)
  {
    hide Steps, Fits, AtCrash, TailIsOf;
    ReachedFits(k, g, sid, ls);
    FitsIsReported(k, Steps(k, g, Boot(sid), ls).value);
  }

  lemma FitsIsReported(k: Setup, s: Conf)
    requires Fits(k, s)
    ensures AtCrash(k, s.phase).Some? ==> Classify(s.db) == AtCrash(k, s.phase).value
    ensures TailIsOf(s.db, s.phase)
  {
    hide Classify, ControlPoint, WritePoint;
    ApplyNone(s.db);
  }

  /** Write-ahead, of every step from a reachable state that starts a function. Outside a batch the journal
      already ends in the open intent of that very call. In a batch nothing is journaled yet, and the call
      is batch-eligible: a non-idempotent call is never started there. */
  lemma StartsAreWrittenAhead(k: Setup, g: Guards, sid: string, ls: seq<Label>, l: Label)
    requires Reached(k, g, sid, ls) && Step(k, g, Steps(k, g, Boot(sid), ls).value, l).Some?
    ensures var s := Steps(k, g, Boot(sid), ls).value;
      var s' := Step(k, g, s, l).value;
      && s.started <= s'.started && |s'.started| <= |s.started| + 1
      && forall i :: |s.started| <= i < |s'.started| ==>
           var call := s'.started[i];
           if l.Begin? then Classify(s.db) == Clean && BatchEligible(k, call) && !NonIdempotent(k, call)
           else s'.phase.Running? && s'.phase.call == call && s'.db == s.db
                && IntentOpen(k, s.db, call, s'.phase.key, s'.phase.seqNo)
  {
    hide Steps, ApplyAll, AllFit, ControlFits, AtExec, AtAnswer, DoneWrites, Classify;
    var s := Steps(k, g, Boot(sid), ls).value;
    ReachedInv(k, g, sid, ls);
    ReachedFits(k, g, sid, ls);
    StepKeepsInv(k, g, s, l);
    if l.Begin? {
      assert BatchEligible(k, s.phase.batch[l.i]);
    }
  }
}
