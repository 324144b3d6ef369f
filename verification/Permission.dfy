/** Deny by default, over whole runs (scr/kernel.py, scr/capability.py): no function starts unless the
    manifest grants the tool and its classification is within the ceiling. */
module Permission {
  import opened Basics
  import opened Capability
  import opened State
  import opened KernelSpec
  import opened Machine
  import opened Safety

  predicate AllPermitted(k: Setup, calls: seq<Call>) {
    forall i :: 0 <= i < |calls| ==> Permitted(k, calls[i].name)
  }

  /** What has been started is permitted, and so is what the code is about to start. */
  predicate StartsPermitted(k: Setup, s: Conf) {
    AllPermitted(k, s.started) && PhasePermitted(k, s.phase)
  }

  predicate PhasePermitted(k: Setup, p: Phase) {
    match p
    case Do(_, c) => c.Tool? ==> Permitted(k, c.call.name)
    case Batching(_, batch, _, _) => AllPermitted(k, batch)
    case _ => true
  }

  lemma ExecIsPermitted(k: Setup, db: Session, iteration: nat, calls: seq<Call>)
    ensures PhasePermitted(k, AtExec(k, db, iteration, calls))
  {
    hide Denial, Permitted;
    var p := AtExec(k, db, iteration, calls);
    if p.Batching? {
      forall i | 0 <= i < |p.batch|
        ensures Permitted(k, p.batch[i].name)
      {
        assert BatchEligible(k, calls[i]);
        DenialIsExact(k, calls[i].name);
      }
    } else if calls != [] {
      DenialIsExact(k, calls[0].name);
    }
  }

  lemma StepKeepsPermits(k: Setup, g: Guards, s: Conf, l: Label)
    requires StartsPermitted(k, s) && Step(k, g, s, l).Some?
    ensures StartsPermitted(k, Step(k, g, s, l).value)
  {
    hide AtExec, Permitted, DoneWrites, RecoverWrites, ApplyAll;
    if l.Proceed? && s.phase.next.Exec? {
      ExecIsPermitted(k, s.db, s.phase.next.iteration, s.phase.next.calls);
    }
  }

  lemma {:induction false} ReachedPermits(k: Setup, g: Guards, sid: string, ls: seq<Label>)
    requires Reached(k, g, sid, ls)
    ensures StartsPermitted(k, Steps(k, g, Boot(sid), ls).value)
    decreases |ls|
  {
    hide Step;
    if ls != [] {
      ReachedPermits(k, g, sid, ls[..|ls| - 1]);
      StepKeepsPermits(k, g, Steps(k, g, Boot(sid), ls[..|ls| - 1]).value, ls[|ls| - 1]);
    }
  }

  /** Over every interleaving with crashes: each call whose function was started, in a batch or not, names a
      tool that the manifest grants and the kernel has, classified at most at the manifest's ceiling. */
  lemma StartedCallsArePermitted(k: Setup, g: Guards, sid: string, ls: seq<Label>)
    requires Reached(k, g, sid, ls)
    ensures var started := Steps(k, g, Boot(sid), ls).value.started;
      forall i :: 0 <= i < |started| ==> Permitted(k, started[i].name)
  {
    hide Steps, Permitted;
    ReachedPermits(k, g, sid, ls);
  }
}
