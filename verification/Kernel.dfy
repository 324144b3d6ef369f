/** The kernel as the imperative program it is (scr/kernel.py): methods that write the store row by
    row, each proved to compute the corresponding function of KernelSpec and to leave every other
    session's rows alone. */
module Kernel {
  import opened Basics
  import opened Capability
  import opened State
  import opened KernelSpec

  class Kernel<W> {
    const store: Store
    const env: Env<W>
    var world: W
    var polls: nat
    var attempts: nat

    constructor (store: Store, env: Env<W>, world: W)
      ensures this.store == store && this.env == env
      ensures this.world == world && polls == 0 && attempts == 0
    {
      this.store, this.env, this.world := store, env, world;
      polls, attempts := 0, 0;
    }

    /** The session's rows together with the outside world. */
    ghost function At(sid: string): St<W>
      reads this, store
    {
      St(store.View(sid), world, polls, attempts)
    }

    twostate predicate OthersKept(sid: string)
      reads store
    {
      forall other :: other != sid ==> store.View(other) == old(store.View(other))
    }

    method FoldDenial(sid: string, call: Call, reason: string)
      requires store.Valid()
      modifies store
      ensures store.Valid()
      ensures store.View(sid) == ApplyAll(old(store.View(sid)), CapDeniedWrites(call, reason))
      ensures OthersKept(sid)
    {
      hide Store.Valid, Store.View;
      ghost var ws := CapDeniedWrites(call, reason);
      ApplyTwo(store.View(sid), ws[0], ws[1]);
      store.LedgerAppend(sid, CapDenied(call.name, reason));
      store.AddMessage(sid, ToolMsg(call.name, call.id, "DENIED by capability kernel: " + reason));
    }

    method ExecuteCall(sid: string, call: Call)
      requires store.Valid()
      modifies this, store
      ensures store.Valid()
      ensures At(sid) == ExecCall(env, old(At(sid)), call)
      ensures OthersKept(sid)
    {
      hide Store.Valid, Store.View;
      hide ApplyAll, DoneWrites, CapDeniedWrites;
      var denial := Denial(env.setup, call.name);
      if denial.Some? {
        FoldDenial(sid, call, denial.value);
        return;
      }
      var _, tailSeq := store.JournalTail(sid);
      var key := IdemKey(sid, tailSeq + 1, call.name, call.args);
      var idempotent := env.setup.tools[call.name].idempotent;
      var seqNo := store.JournalAppend(sid, ExecIntent(call.name, call.args, idempotent, key));
      var cached := store.ToolResultGet(key);
      if cached.Some? {
        FinishCall(sid, call, key, seqNo, true, cached.value, false);
      } else {
        var out := env.fn(call.name, call.args, world);
        world := out.1;
        FinishCall(sid, call, key, seqNo, false, out.0, false);
      }
    }

    /** The common end of `_execute_call` and `_persist_precomputed`. */
    method FinishCall(sid: string, call: Call, key: IdemKey, seqNo: nat, cached: bool, result: string, parallel: bool)
      requires key.sid == sid
      requires store.Valid()
      modifies store
      ensures store.Valid()
      ensures store.View(sid) == ApplyAll(old(store.View(sid)), DoneWrites(call, key, seqNo, cached, result, parallel))
      ensures OthersKept(sid)
    {
      hide Store.Valid, Store.View;
      ghost var db := store.View(sid);
      ghost var head := if cached then [] else [PutResult(key, result)];
      ghost var mid := [Journal(ExecDone(seqNo, key, false)),
                        Log(ToolExec(call.name, call.args, result, key, parallel))];
      ghost var err := if IsToolError(result) then [Log(ToolError(call.name, result))] else [];
      ghost var last := [Post(ToolMsg(call.name, call.id, result))];
      if !cached {
        store.ToolResultPut(key, result);
        ApplyOne(db, head[0]);
      }
      assert store.View(sid) == ApplyAll(db, head);
      ghost var db1 := store.View(sid);
      var _ := store.JournalAppend(sid, ExecDone(seqNo, key, false));
      store.LedgerAppend(sid, ToolExec(call.name, call.args, result, key, parallel));
      ApplyTwo(db1, mid[0], mid[1]);
      ghost var db2 := store.View(sid);
      if IsToolError(result) {
        store.LedgerAppend(sid, ToolError(call.name, result));
        ApplyOne(db2, err[0]);
      }
      ghost var db3 := store.View(sid);
      store.AddMessage(sid, ToolMsg(call.name, call.id, result));
      ApplyOne(db3, last[0]);
      ApplyAllConcat(db, head + mid + err, last);
      ApplyAllConcat(db, head + mid, err);
      ApplyAllConcat(db, head, mid);
    }

    method PersistPrecomputed(sid: string, call: Call, precomputed: string)
      requires call.name in env.setup.tools && env.setup.tools[call.name].idempotent
      requires store.Valid()
      modifies store
      ensures store.Valid()
      ensures store.View(sid) == Persist(env.setup, old(store.View(sid)), call, precomputed)
      ensures OthersKept(sid)
    {
      hide Store.Valid, Store.View;
      var _, tailSeq := store.JournalTail(sid);
      var key := IdemKey(sid, tailSeq + 1, call.name, call.args);
      var seqNo := store.JournalAppend(sid, ExecIntent(call.name, call.args, true, key));
      var cached := store.ToolResultGet(key);
      var result := if cached.Some? then cached.value else precomputed;
      FinishCall(sid, call, key, seqNo, cached.Some?, result, true);
    }

    /** The functions first, in whatever order the pool runs them; then one row at a time. */
    method RunParallelBatch(sid: string, batch: seq<Call>)
      requires forall c :: c in batch ==> BatchEligible(env.setup, c)
      requires store.Valid()
      modifies this, store
      ensures store.Valid()
      ensures At(sid) == RunBatch(env, old(At(sid)), batch)
      ensures OthersKept(sid)
    {
      hide Store.Valid, Store.View;
      var order := env.schedule(polls, |batch|);
      var gathered := RunFunctions(batch, order);
      PersistBatch(sid, batch, Collect(gathered, |batch|));
    }

    method RunFunctions(batch: seq<Call>, order: seq<nat>) returns (gathered: map<nat, string>)
      modifies this
      ensures (gathered, world) == RunFns(env, batch, order, old(world))
      ensures polls == old(polls) && attempts == old(attempts)
    {
      gathered := map[];
      for i := 0 to |order|
        invariant (gathered, world) == RunFns(env, batch, order[..i], old(world))
        invariant polls == old(polls) && attempts == old(attempts)
      {
        assert order[..i+1][..i] == order[..i];
        if order[i] < |batch| {
          var out := env.fn(batch[order[i]].name, batch[order[i]].args, world);
          gathered, world := gathered[order[i] := out.0], out.1;
        }
      }
      assert order[..|order|] == order;
    }

    method PersistBatch(sid: string, batch: seq<Call>, results: seq<string>)
      requires |batch| == |results|
      requires forall c :: c in batch ==> BatchEligible(env.setup, c)
      requires store.Valid()
      modifies store
      ensures store.Valid()
      ensures store.View(sid) == PersistAll(env.setup, old(store.View(sid)), batch, results)
      ensures OthersKept(sid)
    {
      hide Store.Valid, Store.View;
      for i := 0 to |batch|
        invariant PersistAll(env.setup, store.View(sid), batch[i..], results[i..])
               == PersistAll(env.setup, old(store.View(sid)), batch, results)
        invariant OthersKept(sid)
        invariant store.Valid()
      {
        assert batch[i..][1..] == batch[i+1..] && results[i..][1..] == results[i+1..];
        assert batch[i] in batch;
        PersistPrecomputed(sid, batch[i], results[i]);
      }
    }

    method CountEligible(calls: seq<Call>) returns (n: nat)
      ensures n == EligibleRun(env.setup, calls)
    {
      n := 0;
      while n < |calls| && BatchEligible(env.setup, calls[n])
        invariant n <= |calls|
        invariant EligibleRun(env.setup, calls) == n + EligibleRun(env.setup, calls[n..])
      {
        assert calls[n..][1..] == calls[n+1..];
        n := n + 1;
      }
    }

    /** The approval gate and the call itself, on the sequential path. */
    method ExecuteFirst(sid: string, calls: seq<Call>) returns (paused: Option<ApprovalId>)
      requires calls != []
      requires store.Valid()
      modifies this, store
      ensures store.Valid()
      ensures var out := HandleFirst(env, old(At(sid)), calls);
              && At(sid) == out.st
              && paused == (if out.Paused? then Some(out.aid) else None)
      ensures OthersKept(sid)
    {
      hide Store.Valid, Store.View;
      var call := calls[0];
      ghost var db := store.View(sid);
      if env.setup.gated(call.name, call.args) {
        var aid := ApprovalIdOf(sid, call);
        var rec := store.ApprovalGet(aid);
        if rec.None? {
          ghost var ws := PauseWrites(sid, calls);
          var _ := store.JournalAppend(sid, Awaiting(aid, call.name, call.args, calls));
          store.LedgerAppend(sid, ApprovalRequired(call.name, aid));
          ApplyTwo(db, ws[0], ws[1]);
          return Some(aid);
        }
        if !rec.value.approved {
          ghost var ws := RefusedWrites(sid, call, rec.value.approver);
          store.LedgerAppend(sid, ApprovalDeniedExec(call.name, aid, rec.value.approver));
          store.AddMessage(sid, ToolMsg(call.name, call.id,
                                        "DENIED by approver " + rec.value.approver + ": action not authorized"));
          ApplyTwo(db, ws[0], ws[1]);
          return None;
        }
        store.LedgerAppend(sid, ApprovalGrantedExec(call.name, aid, rec.value.approver));
      }
      ExecuteCall(sid, call);
      return None;
    }

    /** One pass of `_execute_pending`'s loop over the calls still to do. */
    method ExecuteSome(sid: string, calls: seq<Call>) returns (halted: bool, paused: Option<ApprovalId>, n: nat)
      requires calls != []
      requires store.Valid()
      modifies this, store
      ensures store.Valid()
      ensures var p := PassOver(env, old(At(sid)), calls);
              if halted then p == Halt(if paused.Some? then Paused(At(sid), paused.value) else Finished(At(sid)))
              else p == Went(At(sid), n)
      ensures OthersKept(sid)
    {
      hide Store.Valid, Store.View;
      hide RunBatch, HandleFirst, ApplyAll, BatchEligible;
      var cancelled := env.cancelled(polls);
      polls := polls + 1;
      if cancelled {
        var _ := store.JournalAppend(sid, Cancelled(calls[0].name));
        return true, None, 0;
      }
      n := CountEligible(calls);
      if n >= 2 {
        RunParallelBatch(sid, calls[..n]);
        return false, None, n;
      }
      paused := ExecuteFirst(sid, calls);
      return paused.Some?, paused, 1;
    }

    method ExecutePending(sid: string, calls: seq<Call>) returns (paused: Option<ApprovalId>)
      requires store.Valid()
      modifies this, store
      ensures store.Valid()
      ensures ExecPending(env, old(At(sid)), calls)
           == if paused.Some? then Paused(At(sid), paused.value) else Finished(At(sid))
      ensures OthersKept(sid)
    {
      hide Store.Valid, Store.View;
      hide PassOver;
      var i := 0;
      while i < |calls|
        invariant 0 <= i <= |calls|
        invariant ExecPending(env, At(sid), calls[i..]) == ExecPending(env, old(At(sid)), calls)
        invariant OthersKept(sid)
        invariant store.Valid()
      {
        var halted, n;
        halted, paused, n := ExecuteSome(sid, calls[i..]);
        if halted {
          return;
        }
        assert calls[i..][n..] == calls[i + n..];
        i := i + n;
      }
      return None;
    }

    method Stop(sid: string, iteration: nat, reason: string) returns (result: RunResult)
      requires store.Valid()
      modifies this, store
      ensures store.Valid()
      ensures (At(sid), result) == KernelSpec.Stop(old(At(sid)), iteration, reason)
      ensures OthersKept(sid)
    {
      hide Store.Valid, Store.View;
      ghost var db := store.View(sid);
      var _ := store.JournalAppend(sid, Stopped(reason));
      store.LedgerAppend(sid, StopLogged(reason));
      ApplyTwo(db, StopWrites(reason)[0], StopWrites(reason)[1]);
      return RunResult("", iteration, reason, None);
    }

    method ModelCallWithRetry(sid: string, iteration: nat) returns (reply: Reply)
      requires store.Valid()
      modifies this, store
      ensures store.Valid()
      ensures (At(sid), reply) == AskModel(env, old(At(sid)), iteration, 1)
      ensures OthersKept(sid)
    {
      hide Store.Valid, Store.View;
      for attempt := 1 to env.guards.modelRetries + 1
        invariant AskModel(env, At(sid), iteration, attempt) == AskModel(env, old(At(sid)), iteration, 1)
        invariant OthersKept(sid)
        invariant store.Valid()
      {
        reply := env.adapter(attempts);
        attempts := attempts + 1;
        if !reply.TransientError? {
          return;
        }
        if attempt >= env.guards.modelRetries {
          return FatalError(reply.error);
        }
        store.LedgerAppend(sid, ModelRetried(iteration, attempt, reply.error));
      }
      return FatalError("no attempt");
    }

    method PostAssistant(sid: string, text: string)
      requires store.Valid()
      modifies store
      ensures store.Valid()
      ensures store.View(sid) == ApplyAll(old(store.View(sid)), AssistantText(text))
      ensures OthersKept(sid)
    {
      hide Store.Valid, Store.View;
      if text != "" {
        ApplyOne(store.View(sid), Post(AssistantMsg(text)));
        store.AddMessage(sid, AssistantMsg(text));
      }
    }

    method RefuseToFinish(sid: string, text: string, reason: string)
      requires store.Valid()
      modifies store
      ensures store.Valid()
      ensures store.View(sid) == ApplyAll(old(store.View(sid)), RefusalWrites(text, reason))
      ensures OthersKept(sid)
    {
      hide Store.Valid, Store.View, ApplyAll;
      ApplyAllConcat(store.View(sid), AssistantText(text), [Post(UserMsg(reason)), Log(FinalizeRefused(reason))]);
      PostAssistant(sid, text);
      ApplyTwo(store.View(sid), Post(UserMsg(reason)), Log(FinalizeRefused(reason)));
      store.AddMessage(sid, UserMsg(reason));
      store.LedgerAppend(sid, FinalizeRefused(reason));
    }

    method Finish(sid: string, text: string, iteration: nat)
      requires store.Valid()
      modifies store
      ensures store.Valid()
      ensures store.View(sid) == ApplyAll(old(store.View(sid)), FinalizeWrites(text, iteration))
      ensures OthersKept(sid)
    {
      hide Store.Valid, Store.View, ApplyAll;
      ghost var ws := FinalizeWrites(text, iteration);
      ApplyThree(store.View(sid), ws[0], ws[1], ws[2]);
      store.AddMessage(sid, AssistantMsg(text));
      var _ := store.JournalAppend(sid, Finalized(iteration));
      store.LedgerAppend(sid, FinalizeLogged(iteration));
    }

    /** The part of the loop body after a response has been recorded. */
    method ActOn(sid: string, iteration: nat, seqNo: nat, r: Reply, history: seq<Signature>)
      returns (finished: bool, result: RunResult, history': seq<Signature>)
      requires r.Response?
      requires store.Valid()
      modifies this, store
      ensures store.Valid()
      ensures Act(env, old(At(sid)), iteration, seqNo, history, r)
           == if finished then Return(At(sid), result) else Next(At(sid), history')
      ensures OthersKept(sid)
    {
      hide Store.Valid, Store.View;
      hide ExecPending, LoopDetected, CycleSignature, TotalTokens, ApplyAll;
      history', result, finished := history, RunResult("", 0, "", None), true;
      if TotalTokens(store.View(sid).ledger) > env.guards.maxTotalTokens {
        result := Stop(sid, iteration, "budget");
        return;
      }
      if r.calls == [] {
        var reason := env.refusal(store.View(sid));
        if reason != "" {
          RefuseToFinish(sid, r.text, reason);
          finished := false;
          return;
        }
        Finish(sid, r.text, iteration);
        result := RunResult(r.text, iteration, "completed", None);
        return;
      }
      history' := history + [CycleSignature(r.calls)];
      if LoopDetected(history', env.guards.cycleThreshold) {
        result := Stop(sid, iteration, "loop_detected");
        return;
      }
      PostAssistant(sid, r.text);
      var paused := ExecutePending(sid, Tag(r.calls, seqNo));
      if paused.Some? {
        result := RunResult("", iteration, "awaiting_approval", paused);
      } else {
        finished := false;
      }
    }

    /** The journaled model call and what follows from its reply. */
    method ConsultModel(sid: string, iteration: nat, history: seq<Signature>)
      returns (finished: bool, result: RunResult, history': seq<Signature>)
      requires store.Valid()
      modifies this, store
      ensures store.Valid()
      ensures Consult(env, old(At(sid)), iteration, history)
           == if finished then Return(At(sid), result) else Next(At(sid), history')
      ensures OthersKept(sid)
    {
      hide Store.Valid, Store.View;
      var seqNo := store.JournalAppend(sid, ModelIntent(iteration));
      var reply := ModelCallWithRetry(sid, iteration);
      if reply.FatalError? {
        store.LedgerAppend(sid, ModelFailed(iteration, reply.error));
        result := Stop(sid, iteration, "model_error");
        return true, result, history;
      }
      ghost var ws := AnsweredWrites(iteration, seqNo, reply);
      ApplyTwo(store.View(sid), ws[0], ws[1]);
      var _ := store.JournalAppend(sid, ModelDone(iteration, seqNo, |reply.calls|));
      store.LedgerAppend(sid, ModelCalled(iteration, reply.text, ToolNames(reply.calls),
                                          reply.inTokens, reply.outTokens));
      finished, result, history' := ActOn(sid, iteration, seqNo, reply, history);
    }

    /** One pass of the `for` body. */
    method TakeTurn(sid: string, iteration: nat, history: seq<Signature>)
      returns (finished: bool, result: RunResult, history': seq<Signature>)
      requires store.Valid()
      modifies this, store
      ensures store.Valid()
      ensures Iterate(env, old(At(sid)), iteration, history)
           == if finished then Return(At(sid), result) else Next(At(sid), history')
      ensures OthersKept(sid)
    {
      hide Store.Valid, Store.View;
      hide Consult, Consulted, Act, GuardReason, ApplyAll, StopWrites;
      var reason := GuardReason(env, St(store.View(sid), world, polls, attempts));
      if reason == "" {
        UnguardedIterates(env, At(sid), iteration, history);
      }
      polls := polls + 1;
      if reason != "" {
        result := Stop(sid, iteration, reason);
        return true, result, history;
      }
      finished, result, history' := ConsultModel(sid, iteration, history);
    }

    method RunLoop(sid: string) returns (result: RunResult)
      requires store.Valid()
      modifies this, store
      ensures store.Valid()
      ensures (At(sid), result) == Loop(env, old(At(sid)), 1, [])
      ensures OthersKept(sid)
    {
      hide Store.Valid, Store.View;
      var history: seq<Signature> := [];
      for iteration := 1 to env.guards.maxIterations + 1
        invariant Loop(env, At(sid), iteration, history) == Loop(env, old(At(sid)), 1, [])
        invariant OthersKept(sid)
        invariant store.Valid()
      {
        var finished;
        finished, result, history := TakeTurn(sid, iteration, history);
        if finished {
          return;
        }
      }
      result := Stop(sid, env.guards.maxIterations, "max_iterations");
    }

    method Run(sid: string, text: string) returns (result: RunResult)
      requires store.Valid()
      modifies this, store
      ensures store.Valid()
      ensures (At(sid), result) == KernelSpec.Run(env, old(At(sid)), text)
      ensures OthersKept(sid)
    {
      hide Store.Valid, Store.View;
      ApplyTwo(store.View(sid), Post(UserMsg(text)), Journal(Assemble));
      store.AddMessage(sid, UserMsg(text));
      var _ := store.JournalAppend(sid, Assemble);
      result := RunLoop(sid);
    }

    method Resume(sid: string) returns (result: RunResult)
      requires store.Valid()
      modifies this, store
      ensures store.Valid()
      ensures (At(sid), result) == KernelSpec.Resume(env, old(At(sid)))
      ensures OthersKept(sid)
    {
      hide Store.Valid, Store.View;
      var tail, _ := store.JournalTail(sid);
      if tail.None? || !tail.value.Awaiting? {
        return RunResult("", 0, "resume_noop", None);
      }
      var paused := ExecutePending(sid, tail.value.pending);
      if paused.Some? {
        return RunResult("", 0, "awaiting_approval", paused);
      }
      result := RunLoop(sid);
    }

    /** `approve` (or `deny`): the record binds the action named by the id, whatever session the
        caller names; the ledger event goes to the caller's session. */
    method Decide(sid: string, aid: ApprovalId, decision: Decision)
      requires store.Valid()
      modifies store
      ensures store.Valid()
      ensures store.View(sid)
           == ApplyAll(old(store.View(sid)), [PutApproval(aid, decision), Log(ApprovalLogged(aid, decision))])
      ensures forall other :: other != sid ==>
        store.View(other) == Apply(old(store.View(other)), PutApproval(aid, decision))
    {
      hide Store.Valid, Store.View;
      ApplyTwo(store.View(sid), PutApproval(aid, decision), Log(ApprovalLogged(aid, decision)));
      store.ApprovalPut(aid, decision);
      store.LedgerAppend(sid, ApprovalLogged(aid, decision));
    }

    method Recover(sid: string) returns (status: Status)
      requires store.Valid()
      modifies store
      ensures store.Valid()
      ensures status == Classify(old(store.View(sid)))
      ensures store.View(sid) == ApplyAll(old(store.View(sid)), RecoverWrites(old(store.View(sid))))
      ensures OthersKept(sid)
    {
      hide Store.Valid, Store.View;
      ghost var db := store.View(sid);
      ghost var ws := RecoverWrites(db);
      var tail, tailSeq := store.JournalTail(sid);
      status := Clean;
      if tail.Some? && tail.value.ModelIntent? {
        var _ := store.JournalAppend(sid, Recovered("reissue_model_call"));
        ApplyOne(db, ws[0]);
        return ReissueModelCall;
      }
      if tail.Some? && tail.value.ExecIntent? {
        var key := tail.value.key;
        var saved := store.ToolResultGet(key);
        if saved.Some? {
          var _ := store.JournalAppend(sid, ExecDone(tailSeq, key, true));
          ApplyOne(db, ws[0]);
          return Resumed;
        }
        if tail.value.idempotent {
          var _ := store.JournalAppend(sid, Recovered("safe_reissue"));
          ApplyOne(db, ws[0]);
          return SafeReissue;
        }
        var _ := store.JournalAppend(sid, NeedsReview(tail.value.tool, key));
        store.SetSessionStatus(sid, "needs_review");
        ApplyTwo(db, ws[0], ws[1]);
        return Quarantined;
      }
    }
  }
}
