# A verified model of the agent runtime's kernel, teams and evidence

The runtime executes tool-calling agents. A *kernel* drives one session: it asks a model, journals what
it is about to do, executes tool calls (some in parallel batches, some behind human approval) and can be
killed at any moment and recovered from its journal. A *team* is a forest of agents that delegate to each
other through a framework tool, each with capabilities attenuated from its parent's. An *evidence layer*
chains every ledger event by hash, seals and exports the chains, and signs packages through a Merkle
root. This project models these parts in Dafny and proves what they are for.

## How it is built

**The kernel, three ways.**

* `State` is the store: tables in a class, and one session's rows as a value with single-row writes.
* `Kernel` is the imperative kernel. Each method writes row by row and is proved equal to a function of
  `KernelSpec`, leaving every other session's rows alone.
* `Machine` is a small-step machine: one row, one started function or one move of the program counter per
  step, with `Crash` enabled everywhere, inside a tool call too, and with decisions arriving between any
  two steps. `KernelRuns` proves that a whole `run` or `resume` of the kernel is a run of that machine,
  and that the functions it ran are exactly those the machine started, in that order.

`Safety` is the invariant over all machine runs and `CrashPoints` the table of what recovery reports at each
of their states; `Permission` adds that nothing starts that the manifest does not permit. `CallLaws` and
`LoopLaws` say what a call and a turn do, table by table; `Answering`, `Batching`, `Pausing` and `LoopBounds`
are theorems about whole passes and loops.

**The team.** `Capability` and `Orchestration` are manifests, attenuation and delegation paths. `Forest`
and `Loading` are the worklist loops that validate and build the teams. `TeamMachine` is a stack of kernel
machines, only the innermost running, with revocation, cancellation and decisions between any two steps.
`TeamSafety` holds its invariant, `TeamEvidence` and `TeamTasks` what its ledgers and tasks mean,
`TeamAuthority` how attenuation bounds what runs, `TeamTermination` the bound on its steps, `TeamRecovery` the
recovery of a crashed run.

**The evidence layer.** `Merkle`, `Package` and `Ledger`, over hash, MAC, signature and JSON functions that
are parameters. Collision-freedom is asked only of the strings that are hashed for the objects at hand;
for all strings it would contradict the fixed digest length.

**The circuit breaker.** `Resilience`, over a real-valued clock.

## What was established

* Over every interleaving of run, resume, recover, decisions and crashes, a non-idempotent call that a
  model emitted has its function started at most once, and a gated one only after its exact action was
  approved (`StartedAtMostOnce`, `GatedStartsAreApproved`), also for the operations of the imperative
  kernel one after another (`RunStaysSafe`, `ResumeStaysSafe`, `RecoverStaysSafe`, `DecideStaysSafe`,
  `CrashStaysSafe`).
* Recovery classifies every crash point of a call correctly, batched or not, and settles the session
  (`CrashPointsOfACall`, `RecoverSettles`), and after a crash anywhere in nested delegation it reports
  every waiting session quarantined and every returned one clean (`RecoverCrashedRun`).
* Nothing starts that the manifest does not permit (`StartedCallsArePermitted`), and in a team nothing that some
  agent on the delegation path may not use (`NoSessionOutgrowsItsPath`).
* A loop that reports "completed" gave a final answer to which the finalize guard had no objection
  (`FinalAnswersPassTheGuard`), and a finalized team session's required children all came through
  (`FinalizedTeamsAreDone`).
* Parallel batching and pausing for approval are invisible in the result (`BatchingRefinesSequential`,
  `PausingRefinesOnePass`, `EachCallAnsweredOnce`).
* Write-ahead: a function outside a batch starts only behind its own journaled intent, and a non-idempotent
  one never starts in a batch (`StartsAreWrittenAhead`). The once-only guarantee holds of every session of a
  team run (`TeamCallsStartOnce`).
* Team runs end: an explicit bound on their steps, and no reachable state is stuck
  (`TeamRunsAreBounded`, `TeamRunsAreNeverStuck`).
* Package validation accepts exactly the forests whose edges narrow (`ValidateForest`), and every agent of
  a loaded package is refused exactly beyond the depth limit or, unless it is a root, with an unknown
  ceiling on its path, and otherwise keeps the tools, hosts and roots that it declares (`BuildLoaded`).
* The pair-and-promote loop computes the tree of section 2.1 of RFC 6962 (`RootOfLeaves`), and equal roots
  mean equal file maps (`RootBindsFiles`).

Facts about the code that the comments around it do not say, and that the model keeps:

* Batched functions run before their `EXEC_INTENT` is journaled; write-ahead holds on the sequential path
  only, and every non-idempotent call takes that path (`StartsAreWrittenAhead`).
* A model error journals `STOPPED` after the open `MODEL_CALL_INTENT`, so `recover` then says `clean`.
* A `resumed` recovery journals `EXEC_DONE` and adds no tool message.
* `recover` journals `FAILED_NEEDS_REVIEW` before it sets the session status; its guarantees are stated for
  a `recover` that completes.
* `attenuate` drops a child root that is wider than the parent's, and for exec rules only sharing as text
  counts: it is sound but no greatest lower bound (`AttenuateIsNotGreatestLowerBound`,
  `AttenuateComparesRulesAsTexts`). `AttenuateIsMeetExactly` says for which manifests it is one.
* A child that stopped abnormally hands back a non-empty text and counts as completed.
* A delegation is logged before the child's authority is checked a second time, so a revocation in between
  leaves a `delegate` event without a child; the limit per child holds all the same.
* The package signature covers the file map only, not the name or the version (`NameIsNotSigned`).
* `_validate_forest` does not look at classification ceilings: a package with an unknown one loads, and
  every agent but a root that has one on its path is then refused (`UnknownCeilingIsLoadedAndRefused`).
* `Ledger.verify` hashes the re-encoded event, so an edit that keeps the event's encoding, such as an added
  blank, is not reported, under a seal neither (`TextEditIsReportedExactly`, `RespacedEditIsNotReported`).
  On rows that one of the two ledger verifiers accepts they agree exactly if every text is canonical
  (`VerifiersAgreeExactly`, `NonCanonicalTextDividesThem`).
* While the functions of a batch run nothing is journaled, so a crash then is reported clean.

## Model

| member | source | states |
|---|---|---|
| `State.Store.SetSessionStatus` | scr/state.py:135-138 | the session's rows with the new status; other sessions unchanged |
| `State.Store.AddMessage` | scr/state.py:147-151 | one more message at the end; other sessions unchanged |
| `State.Store.JournalAppend` | scr/state.py:161-172 | one more record, numbered one above the last; other sessions unchanged |
| `State.Store.JournalTail` | scr/state.py:174-186 | the session's last record and its number, or none |
| `State.Store.LedgerAppend` | scr/ledger.py:56-63 | one more event at the end of the session's ledger; other sessions unchanged |
| `State.Store.ToolResultGet` | scr/state.py:199-203 | the saved result, exactly if there is one |
| `State.Store.ToolResultPut` | scr/state.py:205-212 | the first result saved under a key stays; other sessions unchanged |
| `State.Store.ApprovalGet` | scr/state.py:224-231 | the recorded decision, exactly if there is one |
| `State.Store.ApprovalPut` | scr/state.py:215-222 | the first decision recorded under an id stays |
| `State.FirstDecisionIsFinal` | scr/state.py:215-231 | no later sequence of writes changes a recorded decision |
| `KernelSpec.EligibleRun` | scr/kernel.py:309-323 | the longest leading run of calls that are all batch-eligible |
| `KernelSpec.DenialIsExact` | scr/kernel.py:468-480 | the check refuses exactly the calls whose tool is not granted, does not exist, or is classified above the ceiling (or by an unknown level) |
| `KernelSpec.RecoverSettles` | scr/kernel.py:568-610 | a completed recover adds at most one journal record, loses nothing, and a second one is clean and writes nothing |
| `Kernel.Kernel.ExecuteCall` | scr/kernel.py:468-512 | capability check, intent, cache or function, result, confirmation, as the specification has them in order; other sessions unchanged |
| `Kernel.Kernel.FinishCall` | scr/kernel.py:498-512 | the rows that save, confirm and fold one result |
| `Kernel.Kernel.PersistPrecomputed` | scr/kernel.py:325-355 | the rows of one batched call whose function already ran |
| `Kernel.Kernel.RunParallelBatch` | scr/kernel.py:357-367 | all functions in the pool's order, then the rows call by call |
| `Kernel.Kernel.CountEligible` | scr/kernel.py:382-385 | how many calls the next batch takes |
| `Kernel.Kernel.ExecuteFirst` | scr/kernel.py:391-428 | the approval gate of the next call: pause, refuse, or execute |
| `Kernel.Kernel.ExecutePending` | scr/kernel.py:369-429 | the whole loop over the pending calls, ending at a gate, at a cancel or at the end |
| `Kernel.Kernel.ModelCallWithRetry` | scr/kernel.py:534-548 | the reply after at most the allowed attempts, retries logged |
| `Kernel.Kernel.Stop` | scr/kernel.py:562-565 | the rows and the result of a stop |
| `Kernel.Kernel.ActOn` | scr/kernel.py:270-305 | what an iteration does with a response: budget, finalize or refusal, cycle check, calls |
| `Kernel.Kernel.ConsultModel` | scr/kernel.py:242-269 | the model call journaled ahead, its reply recorded, or the stop after a model error |
| `Kernel.Kernel.TakeTurn` | scr/kernel.py:229-240 | the guards at the head of an iteration, then the rest of it |
| `Kernel.Kernel.RunLoop` | scr/kernel.py:222-307 | the whole loop with its cycle history |
| `Kernel.Kernel.Run` | scr/kernel.py:177-180 | the user's message, the assemble record and the loop |
| `Kernel.Kernel.Resume` | scr/kernel.py:454-466 | picks up the calls that the pause journaled, or does nothing |
| `Kernel.Kernel.Decide` | scr/kernel.py:438-452 | records the decision if it is the first and logs it in the caller's session |
| `Kernel.Kernel.Recover` | scr/kernel.py:568-610 | reports what the journal's tail means and writes exactly the rows that settle it |
| `CallLaws.PermittedCallIsExecuted` | scr/kernel.py:482-512 | a permitted call runs its function once on the world as found; that result is saved under its own intent's key, confirmed, recorded (with an error event exactly if it is an error text) and told to the model |
| `CallLaws.ForbiddenCallIsRefused` | scr/kernel.py:468-480 | a call that is not permitted changes no world, journal or result; one CapDenied event and one message |
| `CallLaws.BatchedCallIsExecuted` | scr/kernel.py:325-355 | a batched call leaves the same rows for its function's result, marked parallel |
| `CallLaws.UndecidedCallPauses` | scr/kernel.py:391-411 | an undecided gated call journals itself and all calls after it, and nothing else happens |
| `CallLaws.RefusedCallIsTold` | scr/kernel.py:412-421 | a denied call is not executed; the model is told who denied it |
| `CallLaws.OtherCallsAreExecuted` | scr/kernel.py:422-428 | any other call is executed, an approval being recorded first |
| `CallLaws.BatchesAreHarmless` | scr/kernel.py:309-323 | batched exactly if permitted, ungated, parallel-safe and idempotent |
| `CallLaws.LeadingCallsAreBatched` | scr/kernel.py:381-389 | two or more leading eligible calls run as one batch, as long as possible |
| `CallLaws.CancelStopsThePass` | scr/kernel.py:377-380 | a cancel seen before a call leaves it and the rest unexecuted and unanswered |
| `CallLaws.DecisionsTakeEffect` | scr/kernel.py:438-452 | a first decision opens or closes the gate of exactly that action |
| `LoopLaws.GuardedTurnStops` | scr/kernel.py:229-240 | a cancel, an oversized context or the clock, in this order, ends the loop with that reason before any model is asked |
| `LoopLaws.AskingEnds` | scr/kernel.py:534-548 | the model is asked again exactly while its error is transient and attempts are left, each retry logged |
| `LoopLaws.ModelIsConsulted` | scr/kernel.py:242-268 | intent first; a response is recorded with its calls and tokens, anything else as a model error that ends the loop |
| `LoopLaws.OverspentTurnStops` | scr/kernel.py:270-272 | over the token budget the loop stops |
| `LoopLaws.FinalAnswerMeetsTheGuard` | scr/kernel.py:274-289 | a response without calls ends the run exactly if the finalize guard has no objection; otherwise the objection goes to the model and the loop on |
| `LoopLaws.CallsAreHandedOn` | scr/kernel.py:291-305 | calls are executed unless they would be the threshold-th in a row with the same multiset |
| `LoopLaws.FinalAnswersPassTheGuard` | scr/kernel.py:222-307 | of every loop: "completed" and a finalize event only for a final answer to whose rows the finalize guard had no objection |
| `LoopLaws.RunStartsWithTheTask` | scr/kernel.py:177-180 | a run first keeps the user's words and the assemble record |
| `KernelRuns.ExecPendingRuns` | scr/kernel.py:369-429 | executing pending calls is a machine run with the same rows; the functions run are those the machine started, in order |
| `KernelRuns.LoopRuns` | scr/kernel.py:222-307 | the same for the loop |
| `KernelRuns.RunIsAMachineRun` | scr/kernel.py:177-180 | the same for a whole run |
| `KernelRuns.ResumeIsAMachineRun` | scr/kernel.py:454-466 | the same for a whole resume |
| `KernelRuns.RunStaysSafe` | scr/kernel.py:177-307 | a run on a session with any past, counted over its whole life: no non-idempotent call starts twice, no gated call unapproved, no call not permitted |
| `KernelRuns.ResumeStaysSafe` | scr/kernel.py:454-466 | the same for a resume |
| `KernelRuns.RecoverStaysSafe` | scr/kernel.py:568-610 | the same for a recover that completes; it starts nothing |
| `KernelRuns.DecideStaysSafe` | scr/kernel.py:438-452 | the same for approve and deny |
| `KernelRuns.CrashStaysSafe` | scr/kernel.py:177-610 | the same for an operation that dies at any point on its way |
| `Safety.StepKeepsInv` | scr/kernel.py:222-610 | every step of the crash machine keeps the invariant |
| `Safety.StepsKeepInv` | scr/kernel.py:222-610 | so does every run |
| `Safety.StartedAtMostOnce` | scr/kernel.py:369-512 | over every interleaving with crashes, no emitted non-idempotent call has its function started twice |
| `Safety.GatedStartsAreApproved` | scr/kernel.py:391-428 | a gated function starts only after an approval of that session, tool, arguments and call id, and never in a batch |
| `Permission.StartedCallsArePermitted` | scr/kernel.py:468-480 | over every interleaving with crashes, every started call names a granted, existing tool, classified at most at the ceiling |
| `Safety.DecisionsAreFinal` | scr/state.py:215-231 | no later step, crash or contrary decision changes a decision |
| `CrashPoints.CrashPointsOfACall` | scr/kernel.py:568-610 | in every reachable state, for sequential and batched calls and with decisions between any two rows: an intent without a saved result is quarantined, or safe to reissue if idempotent; resumed from the saved result to its confirmation; then clean; and it is that call's intent the journal ends in |
| `CrashPoints.StartsAreWrittenAhead` | scr/kernel.py:357-512 | outside a batch a function starts only when the journal already ends in that call's own intent; in a batch nothing is journaled yet and no non-idempotent call starts |
| `CrashPoints.StepFits` | scr/kernel.py:222-610 | every step of the crash machine keeps each due row in agreement with what recovery would report before it |
| `CrashPoints.DoneFits` | scr/kernel.py:498-512 | the rows from a returned function to its folded result pass from unsaved to resumed to clean |
| `Safety.ReturnedIsClean` | scr/kernel.py:568-610 | an operation that returned left a clean session, however it ended |
| `Batching.BatchingRefinesSequential` | scr/kernel.py:309-429 | the batched loop ends as one-at-a-time execution does: gate, messages, journal, keys, results, approvals, world, and the ledger up to the parallel flag |
| `Pausing.PausingRefinesOnePass` | scr/kernel.py:369-466 | after any number of pauses, decisions and resumes, one pass that knew the decisions comes to the same messages, recorded work and world, with exactly the calls left that still wait; none if the rounds finished |
| `Answering.EachCallAnsweredOnce` | scr/kernel.py:369-466 | for any tools, pool and cancels: a prefix of the calls has exactly one tool message each, in order, holding the approver's denial, the refusal, or the result saved under that call's own journaled key; all of them if finished without a cancel, and otherwise the rest waits in the journal |
| `LoopBounds.LoopIsBounded` | scr/kernel.py:208-307 | every loop: at most iterations × retries attempts; started within the token budget it ends at most one response above it, started above it ends in its first iteration |
| `LoopBounds.NoCycleIsExecuted` | scr/kernel.py:131-136 | of the lists of calls that the loop hands to execution, never threshold-many consecutive ones have the same multiset of calls |
| `Capability.ResolveWithin` | scr/capability.py:54-69 | the resolved path, exactly if the path is well-formed and lies under some root |
| `Capability.KeepContainedRoots` | scr/capability.py:128-141 | the child's roots that lie under a parent's root, in order |
| `Capability.RootsContained` | scr/capability.py:128-141 | membership in the kept roots, both ways; all are kept only if the list is unchanged |
| `Capability.AttenuateIsSound` | scr/capability.py:144-162 | whatever the attenuated manifest grants, parent and child grant |
| `Capability.AttenuateGrantsExactly` | scr/capability.py:97-162 | of the requests that both grant, exactly these survive: all for tools, hosts and ceilings; a path unless every child root around it is wider than every parent root around it; a command if one rule that both hold as text allows it |
| `Capability.AttenuateIsNotGreatestLowerBound` | scr/capability.py:128-141 | the failing input: a path that both grant and the attenuation refuses |
| `Capability.AttenuateComparesRulesAsTexts` | scr/capability.py:144-162 | the same for commands: two rules that match it but are written differently do not count as shared |
| `Capability.RootsMeetExactly` | scr/capability.py:128-141 | keeping contained roots loses no path common to both exactly if every parent root under a child root is also under a kept one |
| `Capability.AttenuateIsMeetExactly` | scr/capability.py:144-162 | attenuation grants everything that both grant exactly if that holds of read and of write roots and no common command is lost |
| `Orchestration.Team.Add` | scr/orchestration.py:48-52 | the new edge and node, or a refusal of an unknown parent |
| `Orchestration.Team.Revoke` | scr/orchestration.py:40-43 | the revoked set grows by this node |
| `Orchestration.Team.FindPath` | scr/orchestration.py:59-73 | the path from the root; or exactly that the climb ends below a parentless agent, or exactly that it goes on past the depth limit |
| `Orchestration.Team.EffectiveManifest` | scr/orchestration.py:75-85 | granted exactly along a live path, as its attenuation; severed, unknown ceiling, unreachable and too deep each exactly in its case |
| `Orchestration.Team.AttenuateAlong` | scr/orchestration.py:75-85 | the fold along the path, refused at an unknown ceiling |
| `Orchestration.AlongNeedsKnownCeilings` | scr/capability.py:144-162 | attenuation along a path is refused exactly if the path has more than one node and a ceiling on it is unknown |
| `Orchestration.PathIsUnique` | scr/orchestration.py:59-73 | there is at most one path to an agent |
| `Orchestration.EffectiveIsWithinEveryAncestor` | scr/orchestration.py:75-85 | every granted request is granted by every manifest on the path |
| `Orchestration.RevocationSeversDescendants` | scr/orchestration.py:40-46 | revoking a node denies exactly the agents whose path passes through it and changes nothing for the others |
| `Forest.RoutesAreUnique` | scr/team.py:155-192 | with unique parents and parentless roots there is one way down to each agent |
| `Forest.ForestHasOneParent` | scr/team.py:155-192 | conversely a forest has unique parents and parentless roots |
| `Forest.FrontierAdvances` | scr/team.py:183-192 | the worklist invariant: no child was seen before |
| `Forest.DelegatesKnown` | scr/team.py:151-154 | accepted exactly if every delegate is an agent |
| `Forest.FindParents` | scr/team.py:155-161 | accepted exactly if no agent has two parents or is listed twice |
| `Forest.ClaimTree` | scr/team.py:183-192 | one root's worklist ends, claims its whole subtree, and clashes exactly if the root is taken |
| `Forest.ClaimAll` | scr/team.py:180-192 | all roots; a clash means exactly that a root is declared twice |
| `Forest.RejectWidening` | scr/team.py:210-227 | accepted exactly if the child stays within its parent |
| `Forest.CheckRoots` | scr/team.py:171-178 | accepted exactly if every root is an agent that nobody delegates to |
| `Forest.CheckWidening` | scr/team.py:197-200 | accepted exactly if every edge narrows |
| `Forest.CheckRequired` | scr/team.py:201-206 | accepted exactly if every required child is a declared delegate |
| `Forest.NaturalRoots` | scr/team.py:162 | the agents that nobody delegates to, none twice |
| `Forest.CheckTopology` | scr/team.py:171-195 | accepted exactly if the agents form a forest with these roots; the cycle error never arises |
| `Forest.ValidateForest` | scr/team.py:142-207 | accepts exactly the forests with narrowing edges and declared required children; for distinct roots the two late errors are unreachable |
| `Loading.AddKids` | scr/team.py:281-283 | a parent's children become one edge entry and nodes with their declared manifests |
| `Loading.BuildTeam` | scr/team.py:274-284 | the breadth-first walk without a visited set ends and builds exactly this root's tree |
| `Loading.LoadTeams` | scr/team.py:269-285 | every agent is on exactly the team of the root above it, and each team mirrors its tree |
| `Loading.RouteIsPath` | scr/orchestration.py:59-73 | the declared way down is the path that the team finds |
| `Loading.EffectiveIsDeclared` | scr/team.py:210-227 | along narrowing edges attenuation is refused exactly if the agent is no root and a ceiling is unknown, and otherwise loses no tool, host or root |
| `Loading.LoadedAgentsKeepTheirGrants` | scr/orchestration.py:75-85 | whoever is revoked: granted exactly within the depth limit, with nobody on the path revoked and the ceilings known (or at the root), and then as declared |
| `Loading.UnknownCeilingIsLoadedAndRefused` | scr/team.py:142-207 | every pair of agents with an unknown ceiling passes validation, and delegation within it is refused |
| `Loading.BuildLoaded` | scr/team.py:259-285 | accepted exactly if valid; then one team per root mirrors the agents below it, every agent is on the team that its way down starts from, and it keeps its grants there |
| `TeamSafety.TeamStepKeepsInv` | scr/team.py:415-599 | every step of a team run keeps the invariant of its sessions, ledgers and rows |
| `TeamSafety.TeamStepsKeepInv` | scr/team.py:415-599 | so does every run |
| `TeamSafety.CrashInNestedDelegation` | scr/team.py:509-599 | at every crash point every session above the innermost one classifies as quarantined, every returned one as clean, and there are no others |
| `TeamSafety.TeamCallsStartOnce` | scr/team.py:509-599 | in every session of a team run, live or returned, no non-idempotent call starts twice, no gated one unapproved, none that is not permitted, and no delegation is carried out twice |
| `TeamSafety.FinalizeWaitsForRequiredChildren` | scr/team.py:480-490 | a finalize event comes only after a completion event of each required child in the same ledger |
| `TeamEvidence.AbsorbedAsDeserved` | scr/team.py:567-592 | the verdict on a returned child: denied exactly with some denial and nothing executed; else empty exactly if the policy asks for a result and there is none; else completed; and its result is delivered |
| `TeamEvidence.VerdictsAreDeserved` | scr/team.py:574-592 | every verdict in a session's ledger is about a child session of its own that has returned, and is the one it deserves |
| `TeamEvidence.ReturnedChildrenHaveVerdicts` | scr/team.py:574-592 | every returned child has its verdict in its parent's ledger, or due there |
| `TeamEvidence.FinalizedTeamsAreDone` | scr/team.py:480-490 | a finalized session delegated to every required child itself, and each executed a tool or met no denial, and brought a result if asked to |
| `TeamTasks.DelegationIsDecidedExactly` | scr/team.py:523-563 | the delegate function launches a child exactly if every check passes, after recording delegation and delivery |
| `TeamTasks.DeniedTasksAreNotRedelegated` | scr/team.py:538-546 | under the policy no task is given again to an agent that met only denials on it; each child works on the task it was given |
| `TeamAuthority.NoSessionOutgrowsItsPath` | scr/team.py:415-478 | with kernels set up from effective manifests, every tool started in a team session is granted, with its classification, by every agent on the path from the root |
| `TeamSafety.DelegationsStayWithinTheLimit` | scr/team.py:548-563 | no ledger holds more delegations of a child than the policy allows, even under revocation in the middle |
| `TeamSafety.SessionsFormATree` | scr/team.py:528-566 | each session but the lead has a parent one level up along a topology edge; none is deeper than the limit |
| `TeamTermination.TeamStepLowers` | scr/team.py:523-599 | every step of a team run lowers a potential made of depth, iterations, attempts, calls and due writes |
| `TeamTermination.TeamRunsAreBounded` | scr/team.py:415-599 | a team run takes no more steps than an explicit function of the guards, the depth limit and the calls per answer |
| `TeamTermination.TeamRunsAreNeverStuck` | scr/team.py:415-599 | until the lead session has its result some step is possible that is no guard's stop |
| `TeamRecovery.TeamRecover` | scr/team.py:609-625 | one report per member, each of the rows as the crash left them, each session settled, others untouched |
| `TeamRecovery.LiveCrashPoints` | scr/team.py:609-625 | every live session of a team run, the innermost too, classifies as its place in the code says |
| `TeamRecovery.RecoverCrashedRun` | scr/team.py:609-625 | after a crash anywhere in a team run: waiting sessions quarantined and marked for review, returned ones clean and unchanged, the innermost one as its own crash point says |
| `Merkle.JoinNeighbours` | scr/merkle.py:37-42 | one level: neighbours joined, an odd last one promoted |
| `Merkle.PairUpKeepsTree` | scr/merkle.py:37-43 | joining a level does not change the recursive tree over it |
| `Merkle.RootOfLeaves` | scr/merkle.py:36-44 | for every number of leaves the loop computes the tree split at the largest power of two below it |
| `Merkle.SplitIsPowerOfTwo` | scr/merkle.py:36-44 | the split point is a power of two, and the largest one below the number of leaves |
| `Merkle.MerkleRoot` | scr/merkle.py:31-44 | the tree over the leaves in path order, zeros for no file |
| `Merkle.TreeBinds` | scr/merkle.py:14-44 | equal tree hashes mean equal entry lists, of equal length |
| `Merkle.RootBindsFiles` | scr/merkle.py:14-44 | equal roots mean equal file maps |
| `Package.BuildFilesMap` | scr/package.py:29-40 | the hash of every packaged file and of nothing else |
| `Package.SignPackage` | scr/signer.py:26-41 | the archive's members, its file map and a signature of that map's root |
| `Package.FirstTampered` | scr/loader.py:57-60 | the first file in path order whose content does not match, if any |
| `Package.VerifyPackage` | scr/loader.py:34-91 | accepted exactly if acceptable, and then contents match the declared hashes, a pinned key verifies the signature of their root, and no verifying list names the pair; each error exactly in its case, in the loader's order |
| `Package.SignThenVerify` | scr/signer.py:26-41 | what the signer writes is accepted exactly by keystores that trust its key and do not revoke it |
| `Package.SignedRootBindsContents` | scr/loader.py:62-74 | two archives accepted under one signed root have the same members and contents |
| `Package.NameIsNotSigned` | scr/loader.py:62-91 | an accepted archive is accepted under any other name and version exactly if that pair is not revoked |
| `Ledger.Ledger.Append` | scr/ledger.py:56-63 | the chained row after whatever is there; what either verifier accepted it still accepts |
| `Ledger.Ledger.SealIt` | scr/ledger.py:65-75 | the seal of the chain as it stands; of a chain that either verifier accepts it holds |
| `Ledger.Ledger.Verify` | scr/ledger.py:77-117 | accepted exactly if every row and the seal check out; otherwise the first bad row with its error, or the seal's |
| `Ledger.AppendedChainsVerify` | scr/ledger.py:56-117 | a chain of appended events passes the runtime's verifier and holds them in order, if encoding survives a round trip |
| `Ledger.RuntimeReadsRewritten` | scr/ledger.py:84-100 | the runtime's verifier accepts exactly what parses and, rewritten canonically, is a valid chain |
| `Ledger.RowEditIsReported` | scr/ledger.py:84-100 | of every change to a row's text and hash: at which row it is reported, or that only the head changes, or that it passes |
| `Ledger.TextEditIsReportedExactly` | scr/ledger.py:84-117 | an edit of a text alone is reported, at its row, exactly if it changes the event's encoding; otherwise chain and seal still verify |
| `Ledger.RespacedEditIsNotReported` | scr/ledger.py:90-98 | an edit that only adds a blank passes the runtime's verifier and not the standalone one |
| `Ledger.RuntimeReportsDeletion` | scr/ledger.py:84-89 | a deleted row that was not the last is reported at its place |
| `Ledger.RuntimeHeadBindsEvents` | scr/ledger.py:28-100 | two chains that the runtime accepts with the same head hold the same events, up to the encoding of their texts |
| `Ledger.RuntimeSealBindsEvents` | scr/ledger.py:106-117 | what the runtime accepts under a seal is what was sealed, up to that encoding |
| `Ledger.BuiltChainsAreValid` | scr/_evidence_verifier.py:29-44 | a chain built by appends passes the standalone verifier and holds the appended texts in order |
| `Ledger.HeadBindsChain` | scr/_evidence_verifier.py:22-44 | two valid chains with the same head are equal row for row |
| `Ledger.EditIsReportedThere` | scr/_evidence_verifier.py:29-44 | the standalone verifier reports an edited text at its row |
| `Ledger.RehashedEditIsReportedNext` | scr/_evidence_verifier.py:29-44 | it reports one with its hash recomputed at the next row; at the last one only the head changes |
| `Ledger.DeletionAndReorderingLeaveAGap` | scr/_evidence_verifier.py:32-37 | a deleted row or two swapped neighbours are reported at their place |
| `Ledger.RecomputeChain` | scr/_evidence_verifier.py:29-44 | the standalone verdict, head and count; on a refusal the first bad row and its error |
| `Ledger.VerifiersAgree` | scr/_evidence_verifier.py:22-44 | on canonical event texts both verifiers judge every row alike: same verdict, same first bad row |
| `Ledger.VerifiersAgreeExactly` | scr/_evidence_verifier.py:22-44 | the verdicts agree exactly if neither accepts or every stored text is canonical |
| `Ledger.NonCanonicalTextDividesThem` | scr/_evidence_verifier.py:22-44 | an instance: a non-canonical text, hashed as it stands, passes the standalone verifier and not the runtime's |
| `Ledger.SealBindsRows` | scr/_evidence_verifier.py:98-109 | a chain that the standalone verifier accepts under a seal is the chain that was sealed |
| `Ledger.VerifyTeamBundle` | scr/_evidence_verifier.py:93-122 | per session: chain valid and seal, if any, good; overall: all of these and the bundle's MAC |
| `Ledger.FindProvenance` | scr/evidence.py:96-106 | the package named by the first provenance event of the first session of depth 0 |
| `Ledger.ExportTeamBundle` | scr/evidence.py:120-137 | every session sealed as it stands, with the delegation tree and the package that governed the run, and the whole authenticated |
| `Ledger.ExportThenVerify` | scr/evidence.py:85-137 | an exported bundle verifies exactly if every member's chain is valid |
| `Resilience.CircuitBreaker.Allow` | scr/resilience.py:37-43 | open breakers refuse until the cooldown has passed, then let a trial through |
| `Resilience.CircuitBreaker.RecordSuccess` | scr/resilience.py:45-47 | closed, with no failures counted |
| `Resilience.CircuitBreaker.RecordFailure` | scr/resilience.py:49-53 | one more failure; open at the threshold, from now on |
| `Resilience.CallsAreSpaced` | scr/resilience.py:37-53 | beyond the threshold, calls to a failing adapter are a cooldown apart |
| `Resilience.SuccessForgives` | scr/resilience.py:45-53 | after a success it takes exactly threshold consecutive failures to open |
| `Resilience.FailingAdapterIsRarelyCalled` | scr/resilience.py:37-53 | at most threshold plus one call per full cooldown since the threshold was reached |
| `Resilience.BoundIsReached` | scr/resilience.py:37-53 | for every number of cooldowns some clock reaches that bound |
| `Resilience.FallbackChain.Complete` | scr/resilience.py:73-90 | the answer of the first adapter that is allowed and succeeds; what every breaker then says |

## Left out

- Processes, sandboxing, pipes, vault, network clients, services, configuration and the command line: a tool is a function on an abstract world, a model an oracle of replies.
- Idempotency keys, approval ids, JSON and canonical texts are injective data instead of SHA-256 and encoders; session ids are fresh strings.
- Tool exceptions are folded to result texts as the code does, without modelling the exceptions.
- The `ref` of a call (model response and index) is history for the statements; no decision reads it.
- Context assembly, summarization and the token estimate are one function of the session's messages; the wall clock is a nondeterministic stop.
- Two threads driving one session at once: one writer per session is assumed, as the runtime's lock provides.
- The kernel's tools, manifest and guards stay the same over a session's life in the crash machine.
- BatchingRefinesSequential: needs batch-eligible tools that do not change the world, and no cancel, as the code's declaration of such tools promises.
- PausingRefinesOnePass: compares messages, recorded work and world, since the journals differ by the pause records; assumes no cancel, and batched tools that only read or a pool whose order does not depend on when it is asked.
- TeamRunner's methods are the steps of a machine over values, not methods of a class: aliasing of the per-session policy dictionary is not captured. Creating a session and its `team_sessions` row is one step.
- Decisions on a team session that has already returned, and the order of its opening `policy_declared` and `grant_context` events against a decision that arrives among them, are not modelled.
- The mailbox table, `verify_team_mailbox`, the provenance event, `team_execution_summary` and the text of grant blocks are not modelled; mailbox deliveries appear as ledger events only.
- Team aliases, `load_team_from_dir`, `load_team_from_package` and the parsing of agent files: the model starts from parsed agent specifications.
- Path resolution, alternate-data-stream rejection and regular-expression matching are functions of the host.
- `path_to`'s parent dictionary is the last parent listed in the edges, which is what the dictionary holds.
- Zip archives, single-session bundles, the runtime version in a bundle, timestamps, `run_selftests` and `integrity_check`: easy beside what is modelled.
- A restart that reuses a session through the job table (`sessions.py`), policy tightening (`policy.py`), migrations, backups and the updater: they rest on the file system or add easy members.
- ExportTeamBundle: reads an unparseable event of the lead session as no provenance, where the export raises.
- Floating point: clocks, cooldowns and budgets are real numbers.
