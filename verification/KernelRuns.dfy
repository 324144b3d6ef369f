/** The kernel's methods are runs of the machine: what KernelSpec computes for a whole operation is
    where the machine gets by its own steps, with no crash and no decision on the way, and the
    functions it runs are those that the machine starts, in that order. So what Safety proves of
    every run holds at every point inside the imperative kernel. */
module KernelRuns {
  import opened Basics
  import opened Capability
  import opened State
  import opened KernelSpec
  import opened Machine
  import opened Safety
  import opened Permission

  ghost predicate Path(k: Setup, g: Guards, s: Conf, s': Conf) {
    exists ls :: (forall i :: 0 <= i < |ls| ==> OwnStep(ls[i])) && Steps(k, g, s, ls) == Some(s')
  }

  lemma {:induction false} StepsConcat(k: Setup, g: Guards, s: Conf, a: seq<Label>, b: seq<Label>)
    requires Steps(k, g, s, a).Some?
    ensures Steps(k, g, s, a + b) == Steps(k, g, Steps(k, g, s, a).value, b)
    decreases |b|
  {
    hide Step;
    if b == [] {
      assert a + b == a;
    } else {
      var n := |a + b| - 1;
      assert (a + b)[..n] == a + b[..|b| - 1] && (a + b)[n] == b[|b| - 1];
      StepsConcat(k, g, s, a, b[..|b| - 1]);
    }
  }

  lemma PathTrans(k: Setup, g: Guards, s: Conf, t: Conf, u: Conf)
    requires Path(k, g, s, t) && Path(k, g, t, u)
    ensures Path(k, g, s, u)
  {
    hide Steps, OwnStep;
    var a :| (forall i :: 0 <= i < |a| ==> OwnStep(a[i])) && Steps(k, g, s, a) == Some(t);
    var b :| (forall i :: 0 <= i < |b| ==> OwnStep(b[i])) && Steps(k, g, t, b) == Some(u);
    StepsConcat(k, g, s, a, b);
    var ls := a + b;
    assert forall i :: 0 <= i < |ls| ==> OwnStep(ls[i]);
  }

  lemma PathStep(k: Setup, g: Guards, s: Conf, l: Label)
    requires OwnStep(l) && Step(k, g, s, l).Some?
    ensures Path(k, g, s, Step(k, g, s, l).value)
  {
    hide Step, OwnStep;
    var ls := [l];
    assert ls[..|ls| - 1] == [];
    assert Steps(k, g, s, ls) == Step(k, g, s, l);
  }

  lemma PathRefl(k: Setup, g: Guards, s: Conf)
    ensures Path(k, g, s, s)
  {
    var ls: seq<Label> := [];
    assert Steps(k, g, s, ls) == Some(s);
  }

  // ----------------------------------------------------- the functions that ran

  /** The world after the functions of these calls, run one after another. */
  function WorldAfter<W>(e: Env<W>, calls: seq<Call>, world: W): W {
    if calls == [] then world
    else
      var n := |calls| - 1;
      e.fn(calls[n].name, calls[n].args, WorldAfter(e, calls[..n], world)).1
  }

  /** From s to t the machine started the functions that took the world from w to w'. */
  ghost predicate Ran<W>(e: Env<W>, s: Conf, t: Conf, w: W, w': W) {
    s.started <= t.started && WorldAfter(e, t.started[|s.started|..], w) == w'
  }

  lemma {:induction false} WorldAfterConcat<W>(e: Env<W>, a: seq<Call>, b: seq<Call>, world: W)
    ensures WorldAfter(e, a + b, world) == WorldAfter(e, b, WorldAfter(e, a, world))
    decreases |b|
  {
    if b == [] {
      assert a + b == a;
    } else {
      var n := |b| - 1;
      assert (a + b)[..|a + b| - 1] == a + b[..n];
      WorldAfterConcat(e, a, b[..n], world);
    }
  }

  lemma RanTrans<W>(e: Env<W>, s: Conf, t: Conf, u: Conf, w: W, w': W, w'': W)
    requires Ran(e, s, t, w, w') && Ran(e, t, u, w', w'')
    ensures Ran(e, s, u, w, w'')
  {
    hide WorldAfter;
    var n := |s.started|;
    assert u.started[n..] == t.started[n..] + u.started[|t.started|..];
    WorldAfterConcat(e, t.started[n..], u.started[|t.started|..], w);
  }

  lemma RanNothing<W>(e: Env<W>, s: Conf, t: Conf, w: W)
    requires t.started == s.started
    ensures Ran(e, s, t, w, w)
  {
    assert t.started[|s.started|..] == [];
  }

  lemma RanOne<W>(e: Env<W>, s: Conf, t: Conf, call: Call, w: W)
    requires t.started == s.started + [call]
    ensures Ran(e, s, t, w, e.fn(call.name, call.args, w).1)
  {
    assert t.started[|s.started|..] == [call];
    assert [call][..0] == [];
  }

  /** Due writes get committed one by one. */
  lemma {:induction false} CommitAll(k: Setup, g: Guards, s: Conf)
    requires s.phase.Do?
    ensures Path(k, g, s, s.(db := ApplyAll(s.db, s.phase.ws), phase := Do([], s.phase.next)))
    decreases if s.phase.Do? then |s.phase.ws| else 0
  {
    hide Path, Apply;
    if s.phase.ws == [] {
      PathRefl(k, g, s);
    } else {
      PathStep(k, g, s, Commit);
      var t := Step(k, g, s, Commit).value;
      CommitAll(k, g, t);
      PathTrans(k, g, s, t, t.(db := ApplyAll(t.db, t.phase.ws), phase := Do([], t.phase.next)));
    }
  }

  /** One move of the program counter and then its due writes. */
  lemma MoveAndCommit(k: Setup, g: Guards, s: Conf, l: Label, ws: seq<Write>, c: Control)
    requires OwnStep(l)
    requires Step(k, g, s, l) == Some(s.(phase := Do(ws, c)))
    ensures Path(k, g, s, s.(db := ApplyAll(s.db, ws), phase := Do([], c)))
  {
    hide Path, Step, ApplyAll;
    PathStep(k, g, s, l);
    CommitAll(k, g, s.(phase := Do(ws, c)));
    PathTrans(k, g, s, s.(phase := Do(ws, c)), s.(db := ApplyAll(s.db, ws), phase := Do([], c)));
  }

  // --------------------------------------------------------------- one call

  /** From the committed intent to the folded result. */
  lemma ToolRuns<W>(e: Env<W>, s: Conf, world: W) returns (t: Conf)
    requires s.phase.Do? && s.phase.ws == [] && s.phase.next.Tool?
    ensures Path(e.setup, e.guards, s, t)
    ensures var c := s.phase.next;
      && t.phase == Do([], Exec(c.iteration, c.rest))
      && var cached := c.key in s.db.results;
         var result := if cached then s.db.results[c.key] else e.fn(c.call.name, c.call.args, world).0;
         t.db == ApplyAll(s.db, DoneWrites(c.call, c.key, c.seqNo, cached, result, false))
    ensures var c := s.phase.next;
      Ran(e, s, t, world, if c.key in s.db.results then world else e.fn(c.call.name, c.call.args, world).1)
  {
    hide Path, ApplyAll, DoneWrites, Ran;
    var k, g, c := e.setup, e.guards, s.phase.next;
    if c.key in s.db.results {
      var ws := DoneWrites(c.call, c.key, c.seqNo, true, s.db.results[c.key], false);
      MoveAndCommit(k, g, s, Proceed, ws, Exec(c.iteration, c.rest));
      t := s.(db := ApplyAll(s.db, ws), phase := Do([], Exec(c.iteration, c.rest)));
      RanNothing(e, s, t, world);
    } else {
      PathStep(k, g, s, Proceed);
      var running := Step(k, g, s, Proceed).value;
      var result := e.fn(c.call.name, c.call.args, world).0;
      var ws := DoneWrites(c.call, c.key, c.seqNo, false, result, false);
      MoveAndCommit(k, g, running, Returns(result), ws, Exec(c.iteration, c.rest));
      t := running.(db := ApplyAll(s.db, ws), phase := Do([], Exec(c.iteration, c.rest)));
      PathTrans(k, g, s, running, t);
      RanOne(e, s, t, c.call, world);
    }
  }

  lemma {:induction false} ApplyAhead(s: Session, a: seq<Write>, b: seq<Write>, middle: Session)
    requires ApplyAll(s, a) == middle
    ensures ApplyAll(s, a + b) == ApplyAll(middle, b)
  {
    ApplyAllConcat(s, a, b);
  }

  /** `_execute_call`, possibly after the ledger entry of a granted approval (`ahead`). */
  lemma ExecCallRuns<W>(e: Env<W>, s: Conf, st: St<W>, ahead: seq<Write>, iteration: nat, call: Call, rest: seq<Call>)
    returns (t: Conf)
    requires ahead == [] || (|ahead| == 1 && ahead[0].Log?)
    requires st.db == ApplyAll(s.db, ahead)
    requires Step(e.setup, e.guards, s, Proceed)
          == Some(s.(phase := ExecNext(e.setup, s.db, ahead, iteration, call, rest)))
    ensures Path(e.setup, e.guards, s, t)
    ensures t.db == ExecCall(e, st, call).db && t.phase == Do([], Exec(iteration, rest))
    ensures Ran(e, s, t, st.world, ExecCall(e, st, call).world)
  {
    hide Path, Ran, ApplyAll, DoneWrites, Step, CapDeniedWrites, ClassificationAllowed;
    var k, g := e.setup, e.guards;
    var denial := Denial(k, call.name);
    AheadKeepsJournal(s.db, ahead);
    if denial.Some? {
      var ws := CapDeniedWrites(call, denial.value);
      MoveAndCommit(k, g, s, Proceed, ahead + ws, Exec(iteration, rest));
      ApplyAhead(s.db, ahead, ws, st.db);
      t := s.(db := ApplyAll(s.db, ahead + ws), phase := Do([], Exec(iteration, rest)));
      RanNothing(e, s, t, st.world);
    } else {
      var intent := IntentWrite(k, s.db, call);
      var c := Tool(iteration, call, NextKey(s.db, call), |s.db.journal| + 1, rest);
      MoveAndCommit(k, g, s, Proceed, ahead + [intent], c);
      ApplyAhead(s.db, ahead, [intent], st.db);
      ApplyOne(st.db, intent);
      var at := s.(db := Apply(st.db, intent), phase := Do([], c));
      t := ToolRuns(e, at, st.world);
      PathTrans(k, g, s, at, t);
      RanNothing(e, s, at, st.world);
      RanTrans(e, s, at, t, st.world, st.world, ExecCall(e, st, call).world);
    }
  }

  lemma AheadKeepsJournal(s: Session, ahead: seq<Write>)
    requires ahead == [] || (|ahead| == 1 && ahead[0].Log?)
    ensures var t := ApplyAll(s, ahead);
      t.journal == s.journal && t.sid == s.sid && t.results == s.results && t.approvals == s.approvals
  {
    if ahead != [] {
      assert ahead == [ahead[0]];
      ApplyOne(s, ahead[0]);
    }
  }

  // -------------------------------------------------------------- one batch

  lemma {:induction false} PersistAllRuns(k: Setup, g: Guards, s: Conf)
    requires s.phase.Do? && s.phase.ws == [] && s.phase.next.Persisting?
    requires |s.phase.next.batch| == |s.phase.next.results|
    ensures var c := s.phase.next;
      Path(k, g, s, s.(db := PersistAll(k, s.db, c.batch, c.results), phase := Do([], Exec(c.iteration, c.rest))))
    decreases if s.phase.Do? && s.phase.next.Persisting? then |s.phase.next.batch| else 0
  {
    hide Path, ApplyAll, DoneWrites, IntentWrite, NextKey;
    var c := s.phase.next;
    if c.batch == [] {
      PathStep(k, g, s, Proceed);
    } else {
      var call, key, seqNo := c.batch[0], NextKey(s.db, c.batch[0]), |s.db.journal| + 1;
      var intent := IntentWrite(k, s.db, call);
      var saving := Saving(c.iteration, call, key, seqNo, c.results[0], c.batch[1..], c.results[1..], c.rest);
      MoveAndCommit(k, g, s, Proceed, [intent], saving);
      ApplyOne(s.db, intent);
      var mid := s.(db := Apply(s.db, intent), phase := Do([], saving));
      var cached := key in mid.db.results;
      var ws := DoneWrites(call, key, seqNo, cached, if cached then mid.db.results[key] else c.results[0], true);
      var next := Persisting(c.iteration, c.batch[1..], c.results[1..], c.rest);
      MoveAndCommit(k, g, mid, Proceed, ws, next);
      var t := s.(db := ApplyAll(mid.db, ws), phase := Do([], next));
      IntentLength(k, s.db, call);
      assert t.db == Persist(k, s.db, call, c.results[0]);
      PathTrans(k, g, s, mid, t);
      PersistAllRuns(k, g, t);
      PathTrans(k, g, s, t,
                s.(db := PersistAll(k, s.db, c.batch, c.results), phase := Do([], Exec(c.iteration, c.rest))));
    }
  }

  lemma IntentLength(k: Setup, db: Session, call: Call)
    ensures |Apply(db, IntentWrite(k, db, call)).journal| == |db.journal| + 1
  {
  }

  /** The functions of the batch get started in the order in which the pool runs them. */
  lemma {:induction false} BeginInOrder<W>(e: Env<W>, s: Conf, order: seq<nat>, world: W) returns (t: Conf)
    requires s.phase.Batching? && s.phase.begun == {}
    requires forall i :: 0 <= i < |order| ==> order[i] < |s.phase.batch|
    requires forall i, j :: 0 <= i < j < |order| ==> order[i] != order[j]
    ensures Path(e.setup, e.guards, s, t)
    ensures t.db == s.db && t.phase.Batching? && t.phase == s.phase.(begun := t.phase.begun)
    ensures forall i :: i in t.phase.begun <==> i in order
    ensures Ran(e, s, t, world, RunFns(e, s.phase.batch, order, world).1)
    decreases |order|
  {
    hide Path, Ran;
    var k, g := e.setup, e.guards;
    if order == [] {
      PathRefl(k, g, s);
      RanNothing(e, s, s, world);
      t := s;
    } else {
      var n := |order| - 1;
      var u := BeginInOrder(e, s, order[..n], world);
      assert order == order[..n] + [order[n]];
      PathStep(k, g, u, Begin(order[n]));
      t := Step(k, g, u, Begin(order[n])).value;
      PathTrans(k, g, s, u, t);
      var before := RunFns(e, s.phase.batch, order[..n], world).1;
      var call := s.phase.batch[order[n]];
      RanOne(e, u, t, call, before);
      RanTrans(e, s, u, t, world, before, e.fn(call.name, call.args, before).1);
    }
  }

  lemma BatchRuns<W>(e: Env<W>, s: Conf, iteration: nat, batch: seq<Call>, order: seq<nat>, world: W, rest: seq<Call>)
    returns (t: Conf)
    requires IsSchedule(order, |batch|)
    requires Step(e.setup, e.guards, s, Proceed) == Some(s.(phase := Batching(iteration, batch, {}, rest)))
    ensures Path(e.setup, e.guards, s, t)
    ensures var out := RunFns(e, batch, order, world);
      && t.db == PersistAll(e.setup, s.db, batch, Collect(out.0, |batch|)) && t.phase == Do([], Exec(iteration, rest))
      && Ran(e, s, t, world, out.1)
  {
    hide Path, PersistAll, RunFns, Ran;
    var k, g, out := e.setup, e.guards, RunFns(e, batch, order, world);
    var results := Collect(out.0, |batch|);
    PathStep(k, g, s, Proceed);
    var entered := s.(phase := Batching(iteration, batch, {}, rest));
    var begun := BeginInOrder(e, entered, order, world);
    PathTrans(k, g, s, entered, begun);
    PathStep(k, g, begun, Gather(results));
    var gathered := Step(k, g, begun, Gather(results)).value;
    PathTrans(k, g, s, begun, gathered);
    PersistAllRuns(k, g, gathered);
    t := gathered.(db := PersistAll(k, gathered.db, batch, results), phase := Do([], Exec(iteration, rest)));
    PathTrans(k, g, s, gathered, t);
    SameStarts(e, entered, begun, s, t, world, out.1);
  }

  /** Only the history of started functions counts. */
  lemma SameStarts<W>(e: Env<W>, s: Conf, t: Conf, s': Conf, t': Conf, w: W, w': W)
    requires Ran(e, s, t, w, w') && s'.started == s.started && t'.started == t.started
    ensures Ran(e, s', t', w, w')
  {
  }

  // --------------------------------------------------------- pending calls

  lemma HandleFirstRuns<W>(e: Env<W>, s: Conf, st: St<W>, iteration: nat, calls: seq<Call>) returns (t: Conf)
    requires calls != [] && EligibleRun(e.setup, calls) < 2
    requires s.db == st.db && s.phase == Do([], Exec(iteration, calls))
    ensures Path(e.setup, e.guards, s, t)
    ensures var out := HandleFirst(e, st, calls);
      && t.db == out.st.db
      && t.phase == Do([], if out.Paused? then Leave("", "awaiting_approval") else Exec(iteration, calls[1..]))
      && Ran(e, s, t, st.world, out.st.world)
  {
    hide Path, Ran, ApplyAll, PauseWrites, RefusedWrites, ExecNext, ExecCall, BatchEligible;
    var k, g, sid, call := e.setup, e.guards, s.db.sid, calls[0];
    match GateOf(k, s.db, call) {
      case Undecided =>
        var ws := PauseWrites(sid, calls);
        MoveAndCommit(k, g, s, Proceed, ws, Leave("", "awaiting_approval"));
        t := s.(db := ApplyAll(s.db, ws), phase := Do([], Leave("", "awaiting_approval")));
        RanNothing(e, s, t, st.world);
      case Refused(who) =>
        var ws := RefusedWrites(sid, call, who);
        MoveAndCommit(k, g, s, Proceed, ws, Exec(iteration, calls[1..]));
        t := s.(db := ApplyAll(s.db, ws), phase := Do([], Exec(iteration, calls[1..])));
        RanNothing(e, s, t, st.world);
      case Cleared(who) =>
        var w := ClearedWrite(sid, call, who);
        ApplyOne(s.db, w);
        t := ExecCallRuns(e, s, st.(db := Apply(st.db, w)), [w], iteration, call, calls[1..]);
      case Open =>
        ApplyNone(s.db);
        t := ExecCallRuns(e, s, st, [], iteration, call, calls[1..]);
    }
  }

  lemma PassRuns<W>(e: Env<W>, s: Conf, st: St<W>, iteration: nat, calls: seq<Call>) returns (t: Conf)
    requires Scheduled(e) && calls != []
    requires s.db == st.db && s.phase == Do([], Exec(iteration, calls))
    ensures Path(e.setup, e.guards, s, t)
    ensures match PassOver(e, st, calls)
      case Went(st', n) =>
        t.db == st'.db && t.phase == Do([], Exec(iteration, calls[n..])) && Ran(e, s, t, st.world, st'.world)
      case Halt(Finished(st')) =>
        t.db == st'.db && t.phase == Do([], Top(iteration + 1)) && Ran(e, s, t, st.world, st'.world)
      case Halt(Paused(st', _)) =>
        t.db == st'.db && t.phase == Do([], Leave("", "awaiting_approval")) && Ran(e, s, t, st.world, st'.world)
  {
    hide Path, Ran, IsSchedule, ApplyAll, HandleFirst, PersistAll, BatchEligible, RunFns, ExecNext, GateOf, PauseWrites,
         RefusedWrites;
    var k, g := e.setup, e.guards;
    var polled := st.(polls := st.polls + 1);
    var n := EligibleRun(k, calls);
    if e.cancelled(st.polls) {
      var w := Journal(Cancelled(calls[0].name));
      ApplyOne(s.db, w);
      MoveAndCommit(k, g, s, SeeCancel, [w], Top(iteration + 1));
      t := s.(db := Apply(s.db, w), phase := Do([], Top(iteration + 1)));
      RanNothing(e, s, t, st.world);
    } else if n >= 2 {
      t := BatchRuns(e, s, iteration, calls[..n], e.schedule(polled.polls, n), st.world, calls[n..]);
    } else {
      t := HandleFirstRuns(e, s, polled, iteration, calls);
    }
  }

  lemma {:induction false} ExecPendingRuns<W>(e: Env<W>, s: Conf, st: St<W>, iteration: nat, calls: seq<Call>)
    returns (t: Conf)
    requires Scheduled(e)
    requires s.db == st.db && s.phase == Do([], Exec(iteration, calls))
    ensures Path(e.setup, e.guards, s, t)
    ensures match ExecPending(e, st, calls)
      case Finished(st') => t.db == st'.db && t.phase == Do([], Top(iteration + 1))
      case Paused(st', _) => t.db == st'.db && t.phase == Do([], Leave("", "awaiting_approval"))
    ensures Ran(e, s, t, st.world, ExecPending(e, st, calls).st.world)
    decreases |calls|
  {
    hide Path, PassOver, Ran, Scheduled;
    var k, g := e.setup, e.guards;
    if calls == [] {
      PathStep(k, g, s, Proceed);
      t := Step(k, g, s, Proceed).value;
      RanNothing(e, s, t, st.world);
    } else {
      t := PassRuns(e, s, st, iteration, calls);
      var p := PassOver(e, st, calls);
      if p.Went? {
        var u := t;
        t := ExecPendingRuns(e, u, p.st, iteration, calls[p.n..]);
        PathTrans(k, g, s, u, t);
        RanTrans(e, s, u, t, st.world, p.st.world, ExecPending(e, p.st, calls[p.n..]).st.world);
      }
    }
  }

  // ---------------------------------------------------------------- the loop

  lemma StopRuns(k: Setup, g: Guards, s: Conf, reason: string)
    requires s.phase.Do? && s.phase.ws == [] && (s.phase.next.Top? || s.phase.next.Weigh?)
    ensures Path(k, g, s, s.(db := ApplyAll(s.db, StopWrites(reason)), phase := Do([], Leave("", reason))))
  {
    hide Path, ApplyAll, StopWrites;
    MoveAndCommit(k, g, s, HaltHere(reason), StopWrites(reason), Leave("", reason));
  }

  /** What a turn ends in, as a machine state. */
  predicate TurnAt<W>(t: Conf, turn: Turn<W>, iteration: nat) {
    match turn
    case Next(st, _) => t.db == st.db && t.phase == Do([], Top(iteration + 1))
    case Return(st, result) => t.db == st.db && t.phase == Do([], Leave(result.text, result.reason))
  }

  lemma ActRuns<W>(e: Env<W>, s: Conf, st: St<W>, iteration: nat, seqNo: nat, history: seq<Signature>, r: Reply)
    returns (t: Conf)
    requires Scheduled(e) && r.Response?
    requires s.db == st.db && s.phase == Do([], Weigh(iteration, r.text, Tag(r.calls, seqNo)))
    ensures Path(e.setup, e.guards, s, t)
    ensures TurnAt(t, Act(e, st, iteration, seqNo, history, r), iteration)
    ensures Ran(e, s, t, st.world, Act(e, st, iteration, seqNo, history, r).st.world)
  {
    hide Path, Ran, Scheduled, ApplyAll, ExecPending, StopWrites, FinalizeWrites, RefusalWrites, AssistantText,
         TotalTokens, LoopDetected, CycleSignature;
    var k, g := e.setup, e.guards;
    if TotalTokens(st.db.ledger) > e.guards.maxTotalTokens {
      StopRuns(k, g, s, "budget");
      t := s.(db := ApplyAll(s.db, StopWrites("budget")), phase := Do([], Leave("", "budget")));
      RanNothing(e, s, t, st.world);
    } else if r.calls == [] {
      var reason := e.refusal(st.db);
      if reason != "" {
        MoveAndCommit(k, g, s, Refuse(reason), RefusalWrites(r.text, reason), Top(iteration + 1));
        t := s.(db := ApplyAll(s.db, RefusalWrites(r.text, reason)), phase := Do([], Top(iteration + 1)));
      } else {
        var c := Leave(r.text, "completed");
        MoveAndCommit(k, g, s, Proceed, FinalizeWrites(r.text, iteration), c);
        t := s.(db := ApplyAll(s.db, FinalizeWrites(r.text, iteration)), phase := Do([], c));
      }
      RanNothing(e, s, t, st.world);
    } else if LoopDetected(history + [CycleSignature(r.calls)], e.guards.cycleThreshold) {
      StopRuns(k, g, s, "loop_detected");
      t := s.(db := ApplyAll(s.db, StopWrites("loop_detected")), phase := Do([], Leave("", "loop_detected")));
      RanNothing(e, s, t, st.world);
    } else {
      var calls := Tag(r.calls, seqNo);
      MoveAndCommit(k, g, s, Proceed, AssistantText(r.text), Exec(iteration, calls));
      var told := s.(db := ApplyAll(s.db, AssistantText(r.text)), phase := Do([], Exec(iteration, calls)));
      t := ExecPendingRuns(e, told, st.(db := told.db), iteration, calls);
      PathTrans(k, g, s, told, t);
      SameStarts(e, told, t, s, t, st.world, ExecPending(e, st.(db := told.db), calls).st.world);
    }
  }

  lemma {:induction false} AskRuns<W>(e: Env<W>, s: Conf, st: St<W>, iteration: nat, attempt: nat, seqNo: nat)
    returns (t: Conf)
    requires s.db == st.db && s.phase == Do([], Asking(iteration, attempt, seqNo))
    ensures Path(e.setup, e.guards, s, t)
    ensures var asked := AskModel(e, st, iteration, attempt);
      if asked.1.FatalError? then
        && t.db == ApplyAll(Apply(asked.0.db, Log(ModelFailed(iteration, asked.1.error))), StopWrites("model_error"))
        && t.phase == Do([], Leave("", "model_error"))
      else
        && t.db == ApplyAll(asked.0.db, AnsweredWrites(iteration, seqNo, asked.1))
        && t.phase == Do([], Weigh(iteration, asked.1.text, Tag(asked.1.calls, seqNo)))
    ensures t.started == s.started && AskModel(e, st, iteration, attempt).0.world == st.world
    decreases e.guards.modelRetries + 1 - attempt
  {
    hide Path, ApplyAll, StopWrites, AnsweredWrites;
    var k, g := e.setup, e.guards;
    var reply := if attempt > g.modelRetries then FatalError("no attempt") else e.adapter(st.attempts);
    if reply.TransientError? && attempt < g.modelRetries {
      var w := Log(ModelRetried(iteration, attempt, reply.error));
      MoveAndCommit(k, g, s, Answer(reply), [w], Asking(iteration, attempt + 1, seqNo));
      ApplyOne(s.db, w);
      var u := s.(db := Apply(s.db, w), phase := Do([], Asking(iteration, attempt + 1, seqNo)));
      t := AskRuns(e, u, st.(db := u.db, attempts := st.attempts + 1), iteration, attempt + 1, seqNo);
      PathTrans(k, g, s, u, t);
    } else if reply.Response? {
      var c := Weigh(iteration, reply.text, Tag(reply.calls, seqNo));
      MoveAndCommit(k, g, s, Answer(reply), AnsweredWrites(iteration, seqNo, reply), c);
      t := s.(db := ApplyAll(s.db, AnsweredWrites(iteration, seqNo, reply)), phase := Do([], c));
    } else {
      var w := Log(ModelFailed(iteration, reply.error));
      MoveAndCommit(k, g, s, Answer(reply), [w] + StopWrites("model_error"), Leave("", "model_error"));
      ApplyOne(s.db, w);
      ApplyAhead(s.db, [w], StopWrites("model_error"), Apply(s.db, w));
      t := s.(db := ApplyAll(Apply(s.db, w), StopWrites("model_error")), phase := Do([], Leave("", "model_error")));
    }
  }

  lemma ConsultRuns<W>(e: Env<W>, s: Conf, st: St<W>, iteration: nat, history: seq<Signature>) returns (t: Conf)
    requires Scheduled(e) && iteration <= e.guards.maxIterations
    requires s.db == st.db && s.phase == Do([], Top(iteration))
    ensures Path(e.setup, e.guards, s, t)
    ensures TurnAt(t, Consult(e, st, iteration, history), iteration)
    ensures Ran(e, s, t, st.world, Consult(e, st, iteration, history).st.world)
  {
    hide Path, Ran, Scheduled, ApplyAll, StopWrites, AnsweredWrites, AskModel, Act;
    var k, g := e.setup, e.guards;
    var w, seqNo := Journal(ModelIntent(iteration)), |s.db.journal| + 1;
    MoveAndCommit(k, g, s, Ask, [w], Asking(iteration, 1, seqNo));
    ApplyOne(s.db, w);
    var intended := s.(db := Apply(s.db, w), phase := Do([], Asking(iteration, 1, seqNo)));
    t := AskRuns(e, intended, st.(db := intended.db), iteration, 1, seqNo);
    PathTrans(k, g, s, intended, t);
    var asked := AskModel(e, st.(db := intended.db), iteration, 1);
    if !asked.1.FatalError? {
      var u := t;
      t := ActRuns(e, u, asked.0.(db := u.db), iteration, seqNo, history, asked.1);
      PathTrans(k, g, s, u, t);
      SameStarts(e, u, t, s, t, st.world, Act(e, asked.0.(db := u.db), iteration, seqNo, history, asked.1).st.world);
    } else {
      RanNothing(e, s, t, st.world);
    }
  }

  lemma {:induction false} LoopRuns<W>(e: Env<W>, s: Conf, st: St<W>, iteration: nat, history: seq<Signature>)
    returns (t: Conf)
    requires Scheduled(e)
    requires s.db == st.db && s.phase == Do([], Top(iteration))
    ensures Path(e.setup, e.guards, s, t)
    ensures var out := Loop(e, st, iteration, history);
      t.db == out.0.db && t.phase == Do([], Leave(out.1.text, out.1.reason)) && Ran(e, s, t, st.world, out.0.world)
    decreases e.guards.maxIterations + 1 - iteration
  {
    hide Path, Ran, Scheduled, ApplyAll, StopWrites, Consult, Consulted, Act, GuardReason;
    var k, g := e.setup, e.guards;
    if iteration > g.maxIterations {
      StopRuns(k, g, s, "max_iterations");
      t := s.(db := ApplyAll(s.db, StopWrites("max_iterations")), phase := Do([], Leave("", "max_iterations")));
      RanNothing(e, s, t, st.world);
    } else {
      var polled := st.(polls := st.polls + 1);
      var reason := GuardReason(e, st);
      if reason != "" {
        StopRuns(k, g, s, reason);
        t := s.(db := ApplyAll(s.db, StopWrites(reason)), phase := Do([], Leave("", reason)));
        RanNothing(e, s, t, st.world);
      } else {
        UnguardedIterates(e, st, iteration, history);
        t := ConsultRuns(e, s, polled, iteration, history);
        var turn := Consult(e, polled, iteration, history);
        if turn.Next? {
          var u := t;
          t := LoopRuns(e, u, turn.st, iteration + 1, turn.history);
          PathTrans(k, g, s, u, t);
          RanTrans(e, s, u, t, st.world, turn.st.world, Loop(e, turn.st, iteration + 1, turn.history).0.world);
        }
      }
    }
  }

  /** A whole `run`, and a whole `resume` of a paused session, are runs of the machine: they leave the
      machine's rows and result, and have run the functions it started, once each and in its order. */
  lemma RunIsAMachineRun<W>(e: Env<W>, st: St<W>, started: seq<Call>, text: string) returns (t: Conf)
    requires Scheduled(e)
    ensures var s, out := Conf(st.db, Do(RunWrites(text), Top(1)), started), Run(e, st, text);
      && Path(e.setup, e.guards, s, t) && Ran(e, s, t, st.world, out.0.world)
      && t.db == out.0.db && t.phase == Do([], Leave(out.1.text, out.1.reason))
  {
    hide Path, Ran, ApplyAll, Loop, RunWrites, Scheduled;
    var s := Conf(st.db, Do(RunWrites(text), Top(1)), started);
    CommitAll(e.setup, e.guards, s);
    var u := s.(db := ApplyAll(st.db, RunWrites(text)), phase := Do([], Top(1)));
    t := LoopRuns(e, u, st.(db := u.db), 1, []);
    PathTrans(e.setup, e.guards, s, u, t);
    SameStarts(e, u, t, s, t, st.world, Loop(e, st.(db := u.db), 1, []).0.world);
  }

  lemma ResumeIsAMachineRun<W>(e: Env<W>, st: St<W>, started: seq<Call>) returns (t: Conf)
    requires Scheduled(e)
    requires Tail(st.db).Some? && Tail(st.db).value.Awaiting?
    ensures var s, out := Conf(st.db, Do([], Exec(0, Tail(st.db).value.pending)), started), Resume(e, st);
      && Path(e.setup, e.guards, s, t) && Ran(e, s, t, st.world, out.0.world)
      && t.db == out.0.db && t.phase == Do([], Leave(out.1.text, out.1.reason))
  {
    hide Path, Ran, Loop, ExecPending, Scheduled;
    var calls := Tail(st.db).value.pending;
    var s := Conf(st.db, Do([], Exec(0, calls)), started);
    t := ExecPendingRuns(e, s, st, 0, calls);
    var out := ExecPending(e, st, calls);
    if out.Finished? {
      var u := t;
      t := LoopRuns(e, u, out.st, 1, []);
      PathTrans(e.setup, e.guards, s, u, t);
      RanTrans(e, s, u, t, st.world, out.st.world, Loop(e, out.st, 1, []).0.world);
    }
  }

  // ------------------------------------------- operations one after another

  /** The session's rows and history, with no operation under way, somewhere in its life. */
  ghost predicate Between(k: Setup, g: Guards, sid: string, s: Conf) {
    s.phase.Idle? && exists ls :: Steps(k, g, Boot(sid), ls) == Some(s)
  }

  /** Of all the functions started so far: no non-idempotent call twice, no gated call unapproved, and no
      call that the manifest does not permit. */
  predicate SafeStarts(k: Setup, s: Conf) {
    AtMostOnce(k, s.started) && GatesKept(k, s.db, s.started) && AllPermitted(k, s.started)
  }

  lemma BetweenIsSafe(k: Setup, g: Guards, sid: string, s: Conf)
    requires Between(k, g, sid, s)
    ensures SafeStarts(k, s)
  {
    hide Steps;
    var ls :| Steps(k, g, Boot(sid), ls) == Some(s);
    ReachedInv(k, g, sid, ls);
    ReachedPermits(k, g, sid, ls);
  }

  /** An operation is called, takes its steps and returns. */
  lemma Operation(k: Setup, g: Guards, sid: string, s: Conf, call: Label, t: Conf) returns (u: Conf)
    requires Between(k, g, sid, s) && Step(k, g, s, call).Some? && Path(k, g, Step(k, g, s, call).value, t)
    requires t.phase.Do? && t.phase.ws == [] && t.phase.next.Leave?
    ensures u == t.(phase := Idle) && Between(k, g, sid, u)
  {
    hide OwnStep, Steps, Step;
    LeaveReturns(k, g, t);
    var before :| Steps(k, g, Boot(sid), before) == Some(s);
    var mid := Step(k, g, s, call).value;
    var own :| (forall i :: 0 <= i < |own| ==> OwnStep(own[i])) && Steps(k, g, mid, own) == Some(t);
    OneMore(k, g, sid, before, call);
    StepsConcat(k, g, Boot(sid), before + [call], own);
    OneMore(k, g, sid, before + [call] + own, Proceed);
    u := t.(phase := Idle);
  }

  lemma LeaveReturns(k: Setup, g: Guards, t: Conf)
    requires t.phase.Do? && t.phase.ws == [] && t.phase.next.Leave?
    ensures Step(k, g, t, Proceed) == Some(t.(phase := Idle))
  {
  }

  lemma OneMore(k: Setup, g: Guards, sid: string, ls: seq<Label>, l: Label)
    requires Steps(k, g, Boot(sid), ls).Some?
    ensures Steps(k, g, Boot(sid), ls + [l]) == Step(k, g, Steps(k, g, Boot(sid), ls).value, l)
  {
    hide Step;
    assert (ls + [l])[..|ls|] == ls;
  }

  /** The kernel's `run` on a session with any past, crashes included: the functions it runs, added to
      those run before, still start no non-idempotent call twice, no gated call unapproved and no call not permitted. */
  lemma RunStaysSafe<W>(e: Env<W>, sid: string, s: Conf, st: St<W>, text: string) returns (u: Conf)
    requires Scheduled(e) && Between(e.setup, e.guards, sid, s) && st.db == s.db
    ensures var out := Run(e, st, text).0;
      && u.db == out.db && Ran(e, s, u, st.world, out.world)
      && Between(e.setup, e.guards, sid, u)
      && SafeStarts(e.setup, u)
  {
    hide Path, Ran, Between, Run, Scheduled, SafeStarts;
    BetweenIsIdle(e.setup, e.guards, sid, s);
    var t := RunIsAMachineRun(e, st, s.started, text);
    u := Operation(e.setup, e.guards, sid, s, CallRun(text), t);
    SameStarts(e, Conf(st.db, Do(RunWrites(text), Top(1)), s.started), t, s, u, st.world, Run(e, st, text).0.world);
    BetweenIsSafe(e.setup, e.guards, sid, u);
  }

  lemma BetweenIsIdle(k: Setup, g: Guards, sid: string, s: Conf)
    requires Between(k, g, sid, s)
    ensures s.phase.Idle?
  {
  }

  /** The same for `resume`, which does nothing unless the session is paused. */
  lemma ResumeStaysSafe<W>(e: Env<W>, sid: string, s: Conf, st: St<W>) returns (u: Conf)
    requires Scheduled(e) && Between(e.setup, e.guards, sid, s) && st.db == s.db
    ensures var out := Resume(e, st).0;
      && u.db == out.db && Ran(e, s, u, st.world, out.world)
      && Between(e.setup, e.guards, sid, u)
      && SafeStarts(e.setup, u)
  {
    hide Path, Ran, Between, Loop, ExecPending, Scheduled, SafeStarts;
    BetweenIsIdle(e.setup, e.guards, sid, s);
    var tail := Tail(st.db);
    if tail.Some? && tail.value.Awaiting? {
      var t := ResumeIsAMachineRun(e, st, s.started);
      u := Operation(e.setup, e.guards, sid, s, CallResume, t);
      SameStarts(e, Conf(st.db, Do([], Exec(0, tail.value.pending)), s.started), t, s, u, st.world,
                 Resume(e, st).0.world);
    } else {
      u := s;
      RanNothing(e, s, u, st.world);
    }
    BetweenIsSafe(e.setup, e.guards, sid, u);
  }

  /** The same for a `recover` that completes: it starts nothing and writes what it should. */
  lemma RecoverStaysSafe(k: Setup, g: Guards, sid: string, s: Conf) returns (u: Conf)
    requires Between(k, g, sid, s)
    ensures u.db == ApplyAll(s.db, RecoverWrites(s.db)) && u.started == s.started && Between(k, g, sid, u)
    ensures SafeStarts(k, u)
  {
    hide Path, Between, ApplyAll, RecoverWrites, SafeStarts;
    BetweenIsIdle(k, g, sid, s);
    var called := s.(phase := Do(RecoverWrites(s.db), Leave("", "recovered")));
    CommitAll(k, g, called);
    u := Operation(k, g, sid, s, CallRecover,
                   called.(db := ApplyAll(s.db, RecoverWrites(s.db)), phase := Do([], Leave("", "recovered"))));
    BetweenIsSafe(k, g, sid, u);
  }

  /** The same for `approve` and `deny`, in the session they log in and in the others. */
  lemma DecideStaysSafe(k: Setup, g: Guards, sid: string, s: Conf, aid: ApprovalId, d: Decision, logged: bool)
    returns (u: Conf)
    requires Between(k, g, sid, s)
    ensures logged ==> u.db == ApplyAll(s.db, [PutApproval(aid, d), Log(ApprovalLogged(aid, d))])
    ensures !logged ==> u.db == Apply(s.db, PutApproval(aid, d))
    ensures u.started == s.started && Between(k, g, sid, u)
    ensures SafeStarts(k, u)
  {
    hide Steps, ApplyAll, SafeStarts;
    ApplyTwo(s.db, PutApproval(aid, d), Log(ApprovalLogged(aid, d)));
    var ls :| Steps(k, g, Boot(sid), ls) == Some(s);
    OneMore(k, g, sid, ls, Decided(aid, d, logged));
    u := Step(k, g, s, Decided(aid, d, logged)).value;
    BetweenIsSafe(k, g, sid, u);
  }

  /** The same for an operation that dies at any point t on its way: only rows and history remain. */
  lemma CrashStaysSafe(k: Setup, g: Guards, sid: string, s: Conf, call: Label, t: Conf)
    requires Between(k, g, sid, s) && Step(k, g, s, call).Some? && Path(k, g, Step(k, g, s, call).value, t)
    ensures Between(k, g, sid, t.(phase := Idle))
    ensures SafeStarts(k, t)
  {
    hide OwnStep, Steps, Step;
    var before :| Steps(k, g, Boot(sid), before) == Some(s);
    var mid := Step(k, g, s, call).value;
    var own :| (forall i :: 0 <= i < |own| ==> OwnStep(own[i])) && Steps(k, g, mid, own) == Some(t);
    OneMore(k, g, sid, before, call);
    StepsConcat(k, g, Boot(sid), before + [call], own);
    OneMore(k, g, sid, before + [call] + own, Crash);
    Dies(k, g, t);
    BetweenIsSafe(k, g, sid, t.(phase := Idle));
  }

  lemma Dies(k: Setup, g: Guards, t: Conf)
    ensures Step(k, g, t, Crash) == Some(t.(phase := Idle))
  {
  }
}
