# Runory agent runtime: Fleet scheduling and the durable run protocol

This project models the Rust agent runtime of Runory and proves what its two hardest parts guarantee.

**Fleet runs** carry out a graph of stages on 2 to 10 bound targets. A coordinator leases (stage, target)
pairs to child agent runs under four execution strategies, per-stage and global limits and four failure
policies; an approval sealed over the graph, the targets and the policy authorises it.

- `FleetModel`, `FleetSchedule`: values of a run, and what each coordinator operation makes of them.
- `FleetGraph`, `FleetDrafts`: plan validation with Kahn's algorithm, drafts and stored metadata.
- `FleetCoordinator`: the operations on a mutable run, loop by loop, proved to compute `FleetSchedule`.
- `FleetInvariants`, `FleetClaims`, `FleetClaimKeeps`, `FleetOutcomes`: the inductive invariant, kept by every operation.
- `FleetClaimAnswer`, `FleetStepAnswer`: what each operation must answer, said without its computation and with every
  state written out; each demand has exactly one solution, and the operation finds it.
- `FleetRuns`, `FleetProgress`, `FleetCompletion`: whole runs: ownership, order, capacity, no deadlock, bounds, completion.
- `FleetWitnesses`: concrete runs behind two of the failures below.
- `FleetAuthority`, `FleetHistory`, `FleetService`: the approval protocol around the coordinator, with stale reads,
  failed writes and restarts; `FleetServiceAnswer`: what its steps must make of runs, rows and leases.
- `FleetEventLog`, `FleetStorage`: the bounded event table and the run tables.

**Agent runs** are event-sourced: a controller in memory drives a run through single durable writes, parks it
when the user must decide, and is rebuilt from the log after a crash.

- `AgentModel`: the run as a state machine; a crash may fall between any two writes.
- `AgentSafety`, `AgentRuns`, `AgentGuarantees`: what holds on every run, crashes anywhere.
- `AgentPaths`, `AgentRepeats`: ways through the protocol, and when a command can be executed again, crashes anywhere.
- `AgentQuiescent`: what holds in addition when crashes fall between methods and decisions pass the service's guard.
- `AgentCrashes`: concrete runs that lose those additional guarantees.
- `CommandText`, `CommandForms`, `CommandTwice`, `CommandLoop`, `AgentNovelty`: when a command repeats an earlier
  one, and what that rules out on every run.
- `AgentController`: the controller's methods; every write is proved to be a step of `AgentModel`. While no write is
  refused, each method's contract says which outcome follows from which input, and what it leaves in log and stores.

`ReadDispatch`, `Facts`, `FleetFacts` and `Artifacts` cover the loops around them: batch dedup, fact sets, Fleet
fact aggregation, and character-aligned paging of stored output. `Basics` holds shared vocabulary.

Identities are naturals drawn from a rising supply. A hash is an injective function: the graph digest is a datatype
of what is hashed, an approval's argument hash is the text itself. Clocks, the reasoner, the policy engine, the
remote host, and whether the database accepts a Fleet transaction are parameters or arbitrary choices; what a round of
the loop meets (cancellation, clock, reply) is an arbitrary function of the number of rounds begun before it. Trimming and
redacting text is a function parameter where it can change text, and the identity on commands, which validation
has already found free of secrets.

## What turned out false, and when it holds

- A stored run's child keys are unique only until a pair is leased again at the 32-bit attempt limit
  (`MetadataValidIffUnsaturated`, `SaturationRepeatsKey`; a run that gets there: `SaturatedRun`).
- A failed or cancelled child is never replaced, so a run can still reach Verifying exactly while there is none
  (`CompletableIffUnharmed`; a run that no longer can: `HarmedRun`).
- A failed child is settled for good, so its stage fails again at every later outcome in it, a success included:
  under PauseForReview a run continued after a failure pauses again at each of them (`FailureRecurs`).
- A lease may be issued under an approval that has been invalidated since it was read; the row is still granted
  exactly when it still equals the copy (`LeaseUnderGrantedRowIff`; a whole history: `StaleHistory`).
- A command may start without its approval ever having been announced, after a crash between the two writes; a
  start is preceded by the announcement exactly when the log held it as the user approved (`UnannouncedStart`,
  `StartAnnouncedIff`).
- A command may be executed again after a crash inside a method, in two ways: the outcome was never logged
  (`RepeatedExecution`), or an approval was left pending before the run parked (`OrphanRepeats`). At any point a
  text can still be repeated exactly when an overlapping one passes the replayed memory, is pending on a live run
  with its action stored, or has just been granted (`CanRepeatIff`); no step brings that about, so in runs that
  crash only between methods nothing is repeated (`NoRedundantExecution`).
- Normalising a command twice is normalising it once exactly when the form leads with no echo that has something
  behind it, and the scan kept no pipe that only dropped words separate from a pager (`NormalTwiceIff`,
  `CleanTwiceIff`; two inputs: `SwitchHidesEcho`, `SwitchHidesPager`).
- The similarity of two commands may exceed one, and whether one repeats the other may depend on their order;
  exact conditions count the positions that hold a token of the other command (`SimilarityExceedsOneIff`,
  `SimilaritySymmetricIff`, `OverlapSymmetricIff`; two commands: `OrderMatters`). Without repeated tokens the
  similarity is the Jaccard index and the order does not matter (`SimilarityIsJaccard`, `OverlapSymmetric`).
- A crash between an event and the cursor that follows it leaves a stale cursor: the next emissions are refused
  until it has caught up (`EmissionAcceptedIff`, `RefusedEmission`).
- A batch of tool calls leaves the run in Acting, from where the loop cannot move to reasoning, exactly when policy
  blocks every call (`ExecuteAuthorizedCalls`, `BlockedBatchStrands`). The next round then ends with a transition
  error, unless it is cancelled, late or out of rounds first (`BeginRound`, `DriveLoop`). So an approval that is
  granted and carried out may still answer with an error, when the loop behind it strands (`Approve`).

## Model

| member | source | states |
|---|---|---|
| FleetGraph.ValidateAcyclic | src-tauri/src/agent/fleet_run.rs:456-489 | accepts exactly the graphs whose dependencies are known and that have a rank strictly decreasing along them, for any order of the start set; visits form a topological order, each stage at most once; otherwise the error is a cycle |
| FleetGraph.CountIncoming | src-tauri/src/agent/fleet_run.rs:457-460 | every stage starts with one count per dependency entry |
| FleetGraph.CollectDependants | src-tauri/src/agent/fleet_run.rs:461-466 | a stage is listed under a dependency exactly as often as it names it |
| FleetGraph.StartingStages | src-tauri/src/agent/fleet_run.rs:467-470 | the queue starts with exactly the stages counting zero, each once, in any order |
| FleetGraph.PopKeepsQueue | src-tauri/src/agent/fleet_run.rs:472-473 | what is popped was not visited before and counts zero; queued and visited stay disjoint and duplicate-free |
| FleetGraph.TellKeepsCount | src-tauri/src/agent/fleet_run.rs:474-478 | a counter that is decremented is positive, so it never underflows, and stays the number of waits left |
| FleetGraph.TellKeepsQueue | src-tauri/src/agent/fleet_run.rs:479-481 | a stage enters the queue at the moment its counter reaches zero, hence at most once |
| FleetGraph.TopologicalIsAcyclic | src-tauri/src/agent/fleet_run.rs:484-485 | having visited every stage yields a rank: the graph is acyclic and its dependencies known |
| FleetGraph.StuckMeansCycle | src-tauri/src/agent/fleet_run.rs:486-488 | an unvisited stage behind an unvisited dependency contradicts any rank |
| FleetDrafts.ValidateTargets | src-tauri/src/agent/fleet_run.rs:376-391 | accepts exactly 2 to 10 targets in ordinal order with distinct profiles and sessions |
| FleetDrafts.CheckStage | src-tauri/src/agent/fleet_run.rs:411-441 | accepts exactly the stages that meet every rule; a refusal names a rule the stage breaks |
| FleetDrafts.ValidateStages | src-tauri/src/agent/fleet_run.rs:393-454 | accepts exactly the valid plans and returns the drafted stages, pending; a refusal is explained by the first faulty stage, and a cycle is reported only when no stage is faulty |
| FleetDrafts.Draft | src-tauri/src/agent/fleet_run.rs:231-254 | succeeds exactly on valid plans; the draft has valid metadata and satisfies the run invariant |
| FleetDrafts.ValidateMetadata | src-tauri/src/agent/fleet_run.rs:301-364 | accepts a stored run exactly when graph and child rows are valid |
| FleetDrafts.ValidateChildren | src-tauri/src/agent/fleet_run.rs:346-362 | accepts child rows exactly when each is placed, numbered and coded validly and no (stage, target, attempt) repeats |
| FleetCoordinator.FleetRun.TransitionTo | src-tauri/src/agent/fleet_run.rs:257-269 | moves along the state table and only on live runs; a refusal changes nothing |
| FleetCoordinator.FleetRun.RefreshBlockedStages | src-tauri/src/agent/fleet_coordinator.rs:406-425 | pending stages behind a failed or blocked one become blocked, no others change |
| FleetCoordinator.FleetRun.ClaimStage | src-tauri/src/agent/fleet_coordinator.rs:111-196 | one stage takes exactly the picks of the plan, in order, each with its child and lease; which picks those are is `ClaimIsTheAnswer` |
| FleetCoordinator.FleetRun.ClaimReady | src-tauri/src/agent/fleet_coordinator.rs:57-200 | the nested loops compute the planned claim, which `ClaimIsTheAnswer` determines, with one matching lease per new child; a refusal changes nothing |
| FleetCoordinator.FleetRun.RefreshStage | src-tauri/src/agent/fleet_coordinator.rs:427-450 | only the stage of the outcome is recomputed, to what `OutcomeIsTheAnswer` writes out |
| FleetCoordinator.FleetRun.ApplyFailurePolicy | src-tauri/src/agent/fleet_coordinator.rs:452-476 | the run state follows from the stages by the failure policy, as `FailurePolicyRules` writes it out |
| FleetCoordinator.FleetRun.RecordOutcome | src-tauri/src/agent/fleet_coordinator.rs:202-256 | settles the child the agent run owns and derives stage and run state, as `OutcomeIsTheAnswer` writes it out; a refusal changes nothing |
| FleetCoordinator.FleetRun.Pause | src-tauri/src/agent/fleet_coordinator.rs:258-275 | computes what `PauseIsTheAnswer` demands and returns the agent runs `ActiveAgentsNamed` names; a refusal changes nothing |
| FleetCoordinator.FleetRun.ContinueAfterReview | src-tauri/src/agent/fleet_coordinator.rs:282-320 | computes what `ContinueIsTheAnswer` demands and returns the agent runs `BlockedAgentsNamed` names; a refusal changes nothing |
| FleetCoordinator.FleetRun.Cancel | src-tauri/src/agent/fleet_coordinator.rs:322-338 | computes what `CancelIsTheAnswer` demands and returns the agent runs `ActiveAgentsNamed` names; a refusal changes nothing |
| FleetClaimAnswer.ClaimIsTheAnswer | src-tauri/src/agent/fleet_coordinator.rs:57-200 | on every reachable run a claim gives the one value that meets these demands: due pairs are taken in stage and target order, within ten and requested slots and every stage limit; a due pair is left only if all slots or all its stage's slots are taken, all on earlier pairs; new children, stage states and run state as written out |
| FleetClaimAnswer.ClaimIsMaximal | src-tauri/src/agent/fleet_coordinator.rs:57-200 | after a claim a target of a startable stage that has only blocked children finds all requested or ten slots taken, or its stage's limit reached, or waits for its canary; a claim that leased anything stayed within the slots |
| FleetClaimAnswer.OneAnswer | src-tauri/src/agent/fleet_coordinator.rs:57-200 | two values that meet those demands are equal, lease by lease |
| FleetClaimAnswer.PicksGreedy | src-tauri/src/agent/fleet_coordinator.rs:134-196 | the scan of a stage never passes over a target it may lease for a later one |
| FleetClaimAnswer.LeftByPlan | src-tauri/src/agent/fleet_coordinator.rs:98-197 | a pair the plan could lease is left only when the Fleet or its stage is full, with nothing behind it taken |
| FleetStepAnswer.ClaimAcceptedIff | src-tauri/src/agent/fleet_coordinator.rs:341-376 | a claim is accepted exactly on a live run, approved or executing, that its granted approval still binds; asking for no slot changes nothing |
| FleetStepAnswer.OutcomeIsTheAnswer | src-tauri/src/agent/fleet_coordinator.rs:202-256 | an outcome is accepted exactly on a live, executing run, with a fitting code, from an agent run that owns a working child; only that child takes it, its stage is judged anew, the run follows, and no other value meets this |
| FleetStepAnswer.FailurePolicyRules | src-tauri/src/agent/fleet_coordinator.rs:452-476 | an outcome that leaves a failed stage: Stop fails the run and every later operation is refused; Rollback rolls back and only cancelling is accepted; PauseForReview pauses and blocks every working sibling; Continue goes on and touches no sibling |
| FleetStepAnswer.FailureRecurs | src-tauri/src/agent/fleet_coordinator.rs:427-476 | any later outcome in a stage with a failed child leaves the stage failed and invokes the policy again |
| FleetStepAnswer.PauseIsTheAnswer | src-tauri/src/agent/fleet_coordinator.rs:258-275 | pausing is accepted exactly on live, executing runs and blocks exactly the working children |
| FleetStepAnswer.CancelIsTheAnswer | src-tauri/src/agent/fleet_coordinator.rs:322-338 | cancelling is accepted exactly on live runs that have not ended and cancels exactly the working children |
| FleetStepAnswer.ContinueIsTheAnswer | src-tauri/src/agent/fleet_coordinator.rs:282-320 | continuing is accepted exactly on a live, paused run its granted approval still binds, and sets running exactly the failed and blocked stages with an unsettled target; no child changes |
| FleetStepAnswer.ActiveAgentsNamed | src-tauri/src/agent/fleet_coordinator.rs:398-404 | pausing and cancelling name exactly the agent runs of the working children, in order |
| FleetStepAnswer.BlockedAgentsNamed | src-tauri/src/agent/fleet_coordinator.rs:296-301 | continuing names exactly the agent runs of the blocked children, in order |
| FleetStepAnswer.RunStatesEntered | src-tauri/src/agent/fleet_run.rs:64-98 | from which states each run state is entered |
| FleetAuthority.AuthorisesIff | src-tauri/src/agent/fleet_coordinator.rs:356-376 | a granted approval authorises exactly the run it was bound to: live, in an allowed state, with the version, graph, targets and policy of the binding |
| FleetAuthority.AuthorityMeansBoundGraph | src-tauri/src/agent/fleet_coordinator.rs:356-376 | so what is authorised has the very stage graph that was approved |
| FleetClaims.PicksGrantable | src-tauri/src/agent/fleet_coordinator.rs:134-196 | a stage's scan picks only targets nobody holds or has settled, whose canary has passed, none twice |
| FleetClaims.PicksExhaustive | src-tauri/src/agent/fleet_coordinator.rs:134-196 | with a slot to spare no grantable target is passed over, but for the canary's single pick |
| FleetClaims.PlanIsSound | src-tauri/src/agent/fleet_coordinator.rs:98-197 | over all stages: ready stages, grantable targets, no pair twice |
| FleetClaims.PlanRespectsRoom | src-tauri/src/agent/fleet_coordinator.rs:111-121 | no stage takes more than its limit leaves |
| FleetClaims.PlanMakesProgress | src-tauri/src/agent/fleet_coordinator.rs:98-197 | a free slot and a claimable pair give at least one lease |
| FleetClaimKeeps.ClaimKeepsInv | src-tauri/src/agent/fleet_coordinator.rs:57-200 | claiming keeps the whole run invariant, and ids stay fresh |
| FleetClaimKeeps.BornAttempt | src-tauri/src/agent/fleet_coordinator.rs:159-166 | a new child's attempt is one more than its pair's children so far, up to the limit |
| FleetOutcomes.RecordKeepsInv | src-tauri/src/agent/fleet_coordinator.rs:202-256 | an outcome keeps the invariant under every failure policy |
| FleetOutcomes.PauseKeepsInv | src-tauri/src/agent/fleet_coordinator.rs:258-275 | pausing keeps the invariant |
| FleetOutcomes.ContinueKeepsInv | src-tauri/src/agent/fleet_coordinator.rs:282-320 | continuing keeps the invariant |
| FleetOutcomes.CancelKeepsInv | src-tauri/src/agent/fleet_coordinator.rs:322-338 | cancelling keeps the invariant |
| FleetRuns.RunKeepsInv | src-tauri/src/agent/fleet_coordinator.rs:57-339 | every state of every run of coordinator steps satisfies the invariant |
| FleetRuns.FreshFleetInv | src-tauri/src/agent/fleet_run.rs:240-253 | a validated plan that has not begun satisfies it |
| FleetRuns.ExclusiveOwnership | src-tauri/src/agent/fleet_coordinator.rs:138-148 | of a (stage, target) pair at most one child is ever active or settled |
| FleetRuns.AttemptsIncrease | src-tauri/src/agent/fleet_coordinator.rs:159-166 | attempts start at 1 and strictly increase below the 32-bit limit |
| FleetRuns.CapacityRespected | src-tauri/src/agent/fleet_coordinator.rs:77-84 | never more than ten active children, nor more per stage than its limit |
| FleetRuns.OrderRespected | src-tauri/src/agent/fleet_coordinator.rs:98-110 | a child exists only after all its stage's dependencies have succeeded, and in a canary stage only after the first target has |
| FleetRuns.SucceededStagesFrozen | src-tauri/src/agent/fleet_coordinator.rs:427-450 | along any run a succeeded stage never changes again, and the graph stays the same |
| FleetRuns.MetadataValidIffUnsaturated | src-tauri/src/agent/fleet_run.rs:346-362 | a reachable run has valid metadata exactly while no pair was leased again at the attempt limit |
| FleetService.StoreReachable | src-tauri/src/agent/sqlite.rs:1266-1385 | the tables refuse a reachable run exactly when a pair of it was leased again at the attempt limit, and then keep what they held |
| FleetRuns.SaturationRepeatsKey | src-tauri/src/agent/fleet_coordinator.rs:159-166 | at the limit the next child of the pair repeats the attempt number |
| FleetWitnesses.SaturatedRun | src-tauri/src/agent/fleet_coordinator.rs:159-166 | a run from an approved start that leases one pair once past the limit, so that its metadata is invalid |
| FleetProgress.ClaimIssuesIff | src-tauri/src/agent/fleet_coordinator.rs:57-200 | a claim issues a lease exactly when a slot is free and some pair is claimable |
| FleetProgress.LowestOpenStage | src-tauri/src/agent/fleet_coordinator.rs:98-110 | below any open stage lies an open stage whose dependencies have all succeeded |
| FleetProgress.SchedulerProgress | src-tauri/src/agent/fleet_coordinator.rs:57-200 | with authority, nobody active, nothing failed or cancelled and one slot asked for, at least one lease is issued, for every strategy |
| FleetProgress.VerifyingExactlyWhenComplete | src-tauri/src/agent/fleet_coordinator.rs:245-253 | an outcome moves the run to Verifying exactly when it gives every pair its succeeded child |
| FleetProgress.SettledBounded | src-tauri/src/agent/fleet_coordinator.rs:138-148 | never more settled children than (stage, target) pairs |
| FleetProgress.OutcomesBounded | src-tauri/src/agent/fleet_coordinator.rs:202-256 | over any run accepted outcomes never exceed the sum of the stages' target counts |
| FleetCompletion.CompletableIffUnharmed | src-tauri/src/agent/fleet_coordinator.rs:57-320 | under a valid approval some run of steps leads to Verifying exactly when no child has failed or been cancelled |
| FleetCompletion.SettledStay | src-tauri/src/agent/fleet_coordinator.rs:278-281 | a settled child keeps its verdict for ever |
| FleetCompletion.UnharmedCompletes | src-tauri/src/agent/fleet_coordinator.rs:57-320 | such a run, constructed of diligent steps |
| FleetCompletion.DiligentCompletes | src-tauri/src/agent/fleet_coordinator.rs:57-320 | every schedule that continues when paused, claims when idle and reports success when busy is bounded by the work left, and has reached Verifying exactly when as many successes were accepted as pairs were open |
| FleetCompletion.DiligentStepExists | src-tauri/src/agent/fleet_coordinator.rs:57-320 | until then, under a valid approval, some such step can be taken |
| FleetCompletion.VerifyingIffNoneOpen | src-tauri/src/agent/fleet_coordinator.rs:427-450 | a run without failures is verifying exactly when as many children have settled as there are pairs |
| FleetWitnesses.HarmedRun | src-tauri/src/agent/fleet_coordinator.rs:452-476 | a run of two steps that one failure keeps from ever completing, though it goes on and stays authorised |
| FleetCompletion.SampleFleets | src-tauri/src/agent/fleet_coordinator.rs:491-516 | the invariant is inhabited, before and during execution |
| FleetService.Bind | src-tauri/src/agent/fleet_control.rs:46-70 | binds exactly live runs awaiting approval, and what is bound would be granted now |
| FleetAuthority.DecisionAuthorisesIff | src-tauri/src/agent/fleet_control.rs:72-105 | a decision authorises the run it moves exactly when it grants and the approval passes validation |
| FleetAuthority.DecidedIsFinal | src-tauri/src/agent/fleet_control.rs:72-111 | a decided approval is never decidable again: every later decision invalidates it, and it then authorises nothing |
| FleetService.WalkToApproval | src-tauri/src/agent/service.rs:182-189 | only a draft gets past the first transition, and then past all four; otherwise nothing changes |
| FleetService.Service.CreateDraft | src-tauri/src/agent/service.rs:95-122 | a valid draft becomes live and stored, sealed by its digest |
| FleetService.Service.RequestApproval | src-tauri/src/agent/service.rs:167-206 | takes the request step; succeeds exactly for a draft of the expected version whose write is accepted |
| FleetService.Service.GetApproval | src-tauri/src/agent/service.rs:217-221 | reads a copy of the approval row |
| FleetService.Service.DecideApproval | src-tauri/src/agent/service.rs:208-263 | takes the decision step, which `DecisionMovesRun` and `DecisionSettlesRow` write out; succeeds exactly for a live run of the approval whose write is accepted |
| FleetService.Service.ClaimChildren | src-tauri/src/agent/service.rs:287-337 | takes the claim step; succeeds exactly when the claim is accepted and stored, and hands out its leases only then |
| FleetService.Service.RecordChildOutcome | src-tauri/src/agent/service.rs:425-450 | takes the outcome step on the live run; succeeds exactly when the outcome is accepted and stored |
| FleetService.Service.ContinueFleet | src-tauri/src/agent/service.rs:462-508 | takes the continue step; succeeds exactly when it is accepted and stored, and names the agent runs to retire |
| FleetService.Service.InterruptFleet | src-tauri/src/agent/service.rs:530-553 | takes the pause or cancel step; succeeds exactly when it is accepted and stored, and names the agent runs to stop |
| FleetService.Service.RecoverFleetRuns | src-tauri/src/agent/sqlite.rs:1771-1811 | takes the restart step, which `RestartIsTheAnswer` writes out |
| FleetServiceAnswer.RequestIsTheAnswer | src-tauri/src/agent/service.rs:167-206 | a request moves exactly a live draft of the expected version to AwaitingApproval and, if stored, adds one pending approval with the run's identity, graph, targets and policy |
| FleetServiceAnswer.DecisionMovesRun | src-tauri/src/agent/service.rs:227-249 | a decision takes a run awaiting approval to Approved exactly when it grants a pending approval that still fits run and policy, and back to Planning otherwise, graph and children as they were; a run in any other state stays |
| FleetServiceAnswer.DecisionSettlesRow | src-tauri/src/agent/service.rs:208-263 | a stored decision grants or rejects a row that still fits and otherwise invalidates it with the first reason; it changes no other row, and nothing if not stored |
| FleetServiceAnswer.ClaimHandsOut | src-tauri/src/agent/service.rs:287-337 | a stored claim hands out one lease per new child, naming its run, approval, stage, agent run, target, attempt and policy; an unstored one hands out none |
| FleetServiceAnswer.CoordinationPuts | src-tauri/src/agent/service.rs:425-553 | any other operation replaces the live run by what the coordinator makes of it, in the database too if the write succeeds, and nothing else |
| FleetServiceAnswer.RestartIsTheAnswer | src-tauri/src/agent/sqlite.rs:1771-1811 | after a restart exactly the runs under way are interrupted and all others keep their state; every run is metadata only; every pending or granted approval is invalidated and no other changes |
| FleetAuthority.EffectKeepsWorld | src-tauri/src/agent/service.rs:95-553 | every service step, in any interleaving, with failing writes and restarts, keeps the world invariant |
| FleetAuthority.DecideAdvances | src-tauri/src/agent/service.rs:227-249 | a decision on any copy only advances the stored row, and grants only a row still pending |
| FleetHistory.EveryLeaseWasGranted | src-tauri/src/agent/service.rs:287-337 | every lease was authorised by an earlier grant, on a run awaiting approval with the same version, graph and policy, whose graph holds the leased stage and target |
| FleetHistory.GrantOnRecord | src-tauri/src/agent/service.rs:229-234 | every granted approval in existence was granted by a step on a run awaiting approval with exactly its binding |
| FleetHistory.ApprovalsOnlyAdvance | src-tauri/src/agent/sqlite.rs:1828-1853 | an approval keeps its binding, is decided once, and after that can only be invalidated |
| FleetHistory.NeverRegranted | src-tauri/src/agent/service.rs:208-263 | an approval that has left Granted is never granted again |
| FleetHistory.SecondDecisionInvalidates | src-tauri/src/agent/service.rs:241-248 | a second decision on a granted approval invalidates it and leaves the run alone |
| FleetHistory.LeaseUnderGrantedRowIff | src-tauri/src/agent/service.rs:297-314 | leases are issued under a row still granted exactly when the row equals the copy that was read |
| FleetHistory.StaleCopyStillLeases | src-tauri/src/agent/service.rs:297-314 | a decision between the read and the claim leaves leases under an invalidated approval |
| FleetHistory.StaleHistory | src-tauri/src/agent/service.rs:297-314 | a concrete history from an empty database that ends so |
| FleetHistory.ClaimFits | src-tauri/src/agent/fleet_coordinator.rs:155-158 | the target lookup of a lease never fails |
| FleetHistory.GraphNeverAltered | src-tauri/src/agent/fleet_coordinator.rs:57-339 | no step of any history alters a run's version, targets, policy, digest or graph |
| FleetHistory.NeverLiveAgain | src-tauri/src/agent/service.rs:80-93 | no run found in the database at startup is live again |
| FleetHistory.NothingIssuedAfterRestart | src-tauri/src/agent/service.rs:80-93 | nothing is issued after a restart for a run from before it |
| FleetHistory.RestartRevokes | src-tauri/src/agent/sqlite.rs:1771-1811 | after a restart in any history no approval is pending or granted and every coordinator step on a stored run fails |
| FleetEventLog.EventTable.Append | src-tauri/src/agent/sqlite.rs:1557-1598 | accepts exactly the next number of the run; the ideal log grows by the event, the table keeps its newest 512 |
| FleetEventLog.EventTable.EventsAfter | src-tauri/src/agent/sqlite.rs:1862-1902 | the part of the ideal log after the given number, in order: exactly the events after it among the newest 512 |
| FleetEventLog.EventTable.NextSequence | src-tauri/src/agent/service.rs:275-282 | always one more than the number of events ever appended |
| FleetEventLog.EventTable.AppendNumbered | src-tauri/src/agent/service.rs:315-335 | events numbered from there on are never rejected |
| FleetEventLog.TrimKeepsWindow | src-tauri/src/agent/sqlite.rs:1573-1596 | insert and trim leave exactly the newest events, contiguous |
| FleetStorage.FleetTables.WriteFleetRun | src-tauri/src/agent/sqlite.rs:1266-1385 | stores exactly the runs with valid metadata, replacing the run's rows and no others; an insert over an existing run is refused |
| FleetStorage.FleetTables.InsertChildren | src-tauri/src/agent/sqlite.rs:1367-1383 | no child insert meets an existing key |
| FleetStorage.FleetTables.LoadChildren | src-tauri/src/agent/sqlite.rs:1494-1525 | the stored children, each once, in key order |
| FleetStorage.FleetTables.LoadFleetRun | src-tauri/src/agent/sqlite.rs:1387-1553 | gives back what was last written, summaries blank, metadata only, children sorted; the revalidation never fails |
| FleetStorage.RestoredIsValid | src-tauri/src/agent/sqlite.rs:1550-1551 | what comes back has valid metadata |
| FleetStorage.RestoredKeeps | src-tauri/src/agent/sqlite.rs:1387-1553 | every column comes back as written, stages without summaries, children the same by stage, target and attempt |
| FleetStorage.RestoredIsUnique | src-tauri/src/agent/sqlite.rs:1387-1553 | there is only one run the tables can give back |
| AgentGuarantees.ExecutedAtMostOnce | src-tauri/src/agent/controller.rs:786-830 | with crashes between any two writes, no approved command or call is executed twice |
| AgentGuarantees.ExecutedAsApproved | src-tauri/src/agent/approval.rs:240-267 | what is executed is exactly what a decided approval binds |
| AgentGuarantees.StartedAfterGrant | src-tauri/src/agent/controller.rs:812-819 | every CommandStarted follows the ApprovalGranted of an approval of that command |
| AgentGuarantees.ExecutionsLogged | src-tauri/src/agent/controller.rs:815-823 | every executed command's start is in the log first |
| AgentGuarantees.StartAnnouncedIff | src-tauri/src/agent/controller.rs:765-771 | a start is preceded by its approval's announcement exactly when the log held it as the user approved |
| AgentGuarantees.LiveEqualsReplay | src-tauri/src/agent/service.rs:941-949 | at every point the live verification flag is what replay of the log gives |
| AgentGuarantees.ExtractPendingVerification | src-tauri/src/agent/service.rs:1173-1204 | the replay loop computes it |
| AgentGuarantees.ExtractMeaning | src-tauri/src/agent/service.rs:1173-1204 | replay asks for verification exactly while a mutating or unknown outcome has no later successful read |
| AgentGuarantees.CompletedMeansVerified | src-tauri/src/agent/controller.rs:1072-1116 | before any RunCompleted every such outcome has a later successful read |
| AgentGuarantees.ExtractFinished | src-tauri/src/agent/service.rs:1089-1148 | the replay loop yields the text of every finished command |
| AgentGuarantees.LogHasNoGaps | src-tauri/src/agent/run.rs:114-118 | the log is numbered 1, 2, 3, ... on every run, crashes included |
| AgentGuarantees.EmissionAcceptedIff | src-tauri/src/agent/sqlite.rs:588-605 | an emission is accepted exactly when the cursor is one past the log |
| AgentGuarantees.CrashPauses | src-tauri/src/agent/sqlite.rs:221-273 | a crash loses the controller and nothing else; exactly the runs that were under way are paused |
| AgentGuarantees.StatesEntered | src-tauri/src/agent/state.rs:114-155 | from which states each run state is entered |
| AgentCrashes.RefusedEmission | src-tauri/src/agent/sqlite.rs:588-605 | a concrete run whose next emission is refused |
| AgentRuns.StepKeeps | src-tauri/src/agent/controller.rs:581-1870 | every write, decision, crash, restart and rehydration keeps the safety invariant |
| AgentSafety.EmitKeeps | src-tauri/src/agent/controller.rs:1857-1868 | an emission keeps the safety invariant or is refused without a trace on disk |
| AgentSafety.OutcomeReplays | src-tauri/src/agent/controller.rs:895-929 | setting the flag and logging the outcome agree under replay |
| AgentSafety.DecideKeepsBase | src-tauri/src/agent/controller.rs:812-813 | deciding an approval never makes an executed action executable |
| AgentQuiescent.CursorExact | src-tauri/src/agent/controller.rs:1857-1868 | between methods the persisted cursor is one past the log |
| AgentQuiescent.AtMostOnePending | src-tauri/src/agent/service.rs:630-635 | at most one approval of a run is pending |
| AgentQuiescent.EveryStartAnnounced | src-tauri/src/agent/controller.rs:765-771 | whatever the user approves has been announced |
| AgentRepeats.CanRepeatIff | src-tauri/src/agent/command_loop.rs:17-26 | at any point of any run some continuation executes a command overlapping a given text exactly when an overlapping text passes the replayed memory, an overlapping approval is pending on a live run with its action stored, or an overlapping command has just been granted |
| AgentRepeats.StepRepeatable | src-tauri/src/agent/controller.rs:411-1870 | no step, crash or restart makes a text repeatable that was not |
| AgentRepeats.NoRepeatAfter | src-tauri/src/agent/controller.rs:691-719 | once a text is not repeatable nothing that overlaps it is ever executed, wherever the process crashes |
| AgentRepeats.OutcomeSettles | src-tauri/src/agent/controller.rs:942-953 | right after its outcome is logged a command can be repeated exactly if an overlapping approval is pending |
| AgentRepeats.ToldNeverRepeated | src-tauri/src/agent/controller.rs:942-953 | a command whose outcome was logged with no such approval pending is never repeated, on any run |
| AgentRepeats.StepSteady | src-tauri/src/agent/service.rs:1089-1148 | on every run replay and memory hold every finished command, and what is stored for approval overlaps none |
| AgentQuiescent.NoRedundantExecution | src-tauri/src/agent/command_loop.rs:17-26 | in runs that crash only between methods no executed command overlaps an earlier one, across turns and rehydration, for any overlap test |
| AgentQuiescent.StepCalm | src-tauri/src/agent/controller.rs:411-1870 | every guarded step keeps cursor, announcements, single pending approval and novelty |
| CommandForms.SkipQuoted | src-tauri/src/agent/command_loop.rs:146-163 | the scan stops behind the closing quote, or takes everything |
| CommandForms.ClosingIsFirst | src-tauri/src/agent/command_loop.rs:151-161 | the quote it finds is the first one preceded by an even number of backslashes |
| CommandForms.StripLeadingEcho | src-tauri/src/agent/command_loop.rs:124-144 | drops one leading echo with its argument, unless nothing is behind it |
| CommandForms.StripOutputCosmetics | src-tauri/src/agent/command_loop.rs:84-122 | the scan over the words keeps exactly those no cosmetic takes |
| CommandForms.NormalizeCommand | src-tauri/src/agent/command_loop.rs:66-79 | peeling echoes ends, and the loops compute the normal form; the first trim adds nothing |
| CommandForms.NormalIsClean | src-tauri/src/agent/command_loop.rs:66-101 | a normal form is single-spaced and holds no output flag |
| CommandForms.BannerIgnored | src-tauri/src/agent/command_loop.rs:69-76 | a quoted banner before a command, in any case and spacing, does not change its normal form |
| CommandForms.SubstanceStays | src-tauri/src/agent/command_loop.rs:118-119 | words no cosmetic starts with are all kept, whatever follows |
| CommandForms.VanishesIff | src-tauri/src/agent/command_loop.rs:84-122 | nothing of a text remains exactly when it is a sequence of output formats, switches and pagers with any line counts |
| CommandForms.CosmeticsIgnored | src-tauri/src/agent/command_loop.rs:81-83 | commands with the same substance and different cosmetics have one normal form |
| CommandForms.CleanTwiceIff | src-tauri/src/agent/command_loop.rs:84-122 | dropping cosmetics again drops more exactly when the scan keeps a pipe that only dropped words separate from a pager |
| CommandForms.SwitchHidesPager | src-tauri/src/agent/command_loop.rs:90-93 | a switch between pipe and pager hides the pager from the scan |
| CommandTwice.NormalTwiceIff | src-tauri/src/agent/command_loop.rs:66-79 | normalising twice is normalising once exactly when the form leads with no echo that has something behind it and no pager was hidden |
| CommandTwice.SwitchHidesEcho | src-tauri/src/agent/command_loop.rs:69-76 | a concrete command whose second normal form differs from its first |
| CommandLoop.TokenJaccard | src-tauri/src/agent/command_loop.rs:211-230 | the counting loop computes the similarity; the union never underflows or vanishes |
| CommandLoop.SimilarityIsJaccard | src-tauri/src/agent/command_loop.rs:211-230 | without repeated tokens it is common tokens over all tokens |
| CommandLoop.SimilarityExceedsOneIff | src-tauri/src/agent/command_loop.rs:218-229 | it exceeds one exactly when more than half of all positions are left ones that hold a token of the right |
| CommandLoop.SimilaritySymmetricIff | src-tauri/src/agent/command_loop.rs:218-229 | it is the same in both orders exactly when a list is short or as many positions hold a token of the other list one way as the other |
| CommandLoop.OverlappingIff | src-tauri/src/agent/command_loop.rs:169-185 | overlap in whole numbers: equal, near, or 91 times the found positions reach 41 times all |
| CommandLoop.RoundingHarmless | src-tauri/src/agent/command_loop.rs:178-184 | comparing rounded quotients with a rounded threshold decides as the exact comparison does, for texts this short |
| CommandLoop.OverlapSymmetricIff | src-tauri/src/agent/command_loop.rs:169-185 | overlap depends on the order exactly when the texts are neither equal nor near and their tokens alike one way only |
| CommandLoop.OrderMatters | src-tauri/src/agent/command_loop.rs:17-26 | two concrete commands of which the first repeats the second but not the other way round |
| CommandLoop.IsRedundantCommand | src-tauri/src/agent/command_loop.rs:17-26 | redundant exactly when some remembered command repeats it |
| CommandLoop.RememberedVerbatim | src-tauri/src/agent/command_loop.rs:51-62 | a command that passed validation is read back from its observation word for word, whatever follows |
| CommandLoop.CommandLineFromDetail | src-tauri/src/agent/command_loop.rs:51-62 | the line loop finds the first command line that is not blank |
| AgentNovelty.NoRepeat | src-tauri/src/agent/command_loop.rs:17-26 | on every run, once an executed command cannot be repeated, nothing executed later repeats it, across turns, crashes and rehydration |
| AgentNovelty.FormsDiffer | src-tauri/src/agent/command_loop.rs:17-26 | nothing executed later shares its normal form, unless that is empty |
| AgentNovelty.NoRespelling | src-tauri/src/agent/command_loop.rs:66-68 | nor differ only in letter case and spacing |
| AgentNovelty.NoBanner | src-tauri/src/agent/command_loop.rs:69-76 | nor only by a quoted banner |
| AgentNovelty.NoOtherCosmetics | src-tauri/src/agent/command_loop.rs:81-122 | nor only in output cosmetics |
| AgentNovelty.QuietInOrder | src-tauri/src/agent/command_loop.rs:17-26 | in runs that crash only between methods every executed command has reached that point before the next is executed |
| AgentCrashes.UnannouncedStart | src-tauri/src/agent/controller.rs:766-770 | a concrete crash after which a command starts unannounced |
| AgentCrashes.RepeatedExecution | src-tauri/src/agent/controller.rs:817-824 | a concrete crash after which a command text is executed again, its outcome never logged |
| AgentCrashes.OrphanRepeats | src-tauri/src/agent/controller.rs:764-771 | a concrete crash that orphans an approval, by which a command is executed again although its outcome was logged |
| AgentController.Controller.EmitEvent | src-tauri/src/agent/controller.rs:1857-1868 | appends under the next number and saves the cursor, or gives up; either way a step of the protocol |
| AgentController.Controller.Transition | src-tauri/src/agent/controller.rs:1840-1847 | moves along the state table and saves, or changes nothing |
| AgentController.Controller.Rehydrate | src-tauri/src/agent/service.rs:897-950 | a controller rebuilt from disk continues the run, its flag from replay |
| AgentController.Controller.RequestCommandApproval | src-tauri/src/agent/controller.rs:675-784 | when no write is refused it parks exactly when the text overlaps nothing remembered and policy does not block it, with one new pending approval of exactly that text, announced; otherwise it goes on and remembers the text |
| AgentController.Controller.InterruptForApproval | src-tauri/src/agent/controller.rs:1523-1556 | parks with exactly the call pending under a new approval; when no write is refused it always does |
| AgentController.Controller.Approve | src-tauri/src/agent/controller.rs:581-630 | a waiting approval that is pending, binds the stored action and still matches, when no write is refused: it is granted, the action is executed once and leaves the store, and grant, start and outcome are logged; one that does not match is invalidated unexecuted; then the loop runs; without a waiting approval nothing changes |
| AgentController.Controller.GrantAndResume | src-tauri/src/agent/controller.rs:812-830 | a valid approval, carried out and logged in order before the loop goes on |
| AgentController.Controller.RefuseAndResume | src-tauri/src/agent/controller.rs:832-893 | a rejected or invalidated approval: decided so, its action gone unexecuted, logged, and the loop goes on |
| AgentController.Controller.ExecuteStarted | src-tauri/src/agent/controller.rs:817-824 | executes the action once and counts it |
| AgentController.Controller.RecordOutcome | src-tauri/src/agent/controller.rs:895-929 | the flag rises on a mutating or unknown outcome and falls on a successful read |
| AgentController.Controller.Reject | src-tauri/src/agent/controller.rs:634-673 | a waiting approval is rejected whatever its state, its action leaves the store unexecuted, the rejection is logged, and the loop goes on; otherwise nothing changes |
| AgentController.Controller.SettleDenial | src-tauri/src/agent/controller.rs:864-893 | drops the stored action, tells, and reasons again |
| AgentController.Controller.ExecuteAuthorizedCalls | src-tauri/src/agent/controller.rs:1443-1521 | keeps the tool budget; when no write is refused it parks exactly when policy leaves a call to the user, at the first such call, and otherwise runs exactly the calls policy lets through; it leaves a state the loop cannot move on from exactly when policy blocks every call |
| AgentController.BlockedBatchStrands | src-tauri/src/agent/controller.rs:1443-1521 | such a batch on a new run, and the error of the next round |
| AgentController.Controller.BeginRound | src-tauri/src/agent/controller.rs:974-993 | when no write is refused a live run is cancelled exactly if the user cancelled, else failed exactly if late or out of rounds, else gets an error exactly if its state forbids the move; otherwise the round begins and is counted |
| AgentController.Controller.CompleteRun | src-tauri/src/agent/controller.rs:1108-1116 | completes and logs the answer and then the completion, unless verification is due |
| AgentController.Controller.TakeFinal | src-tauri/src/agent/controller.rs:1071-1116 | when no write is refused a final answer completes exactly when no verification is due, parks for the user exactly when one is due and was asked for, and otherwise asks for it |
| AgentController.Controller.TakeDecision | src-tauri/src/agent/controller.rs:1071-1150 | when no write is refused each decision leads to exactly the outcome `Answers` gives: completion, a question, a failure over the tool budget, an approval, or the next round |
| AgentController.Controller.TakeReply | src-tauri/src/agent/controller.rs:994-1070 | when no write is refused an unusable reply is tolerated twice in a row and then fails the run, a cancellation ends it, a malformed reply goes on, and anything else is acted on |
| AgentController.Controller.Recover | src-tauri/src/agent/controller.rs:1021-1053 | when no write is refused an unusable reply is tolerated exactly if recoverable and fewer than two preceded it, and otherwise fails the run |
| AgentController.Controller.DriveLoop | src-tauri/src/agent/controller.rs:974-1154 | terminates for any reasoner within the remaining rounds and the tool budget and executes nothing that needs approval; when no write is refused every round but the last goes on, and the last says how it ends: completed exactly on a final answer with no verification due, waiting for the user on a question or a final answer with it due, cancelled or failed as the user, the clock and the budgets say, and with an error exactly when it stands behind a batch blocked completely |
| AgentController.Controller.TakeRound | src-tauri/src/agent/controller.rs:974-1154 | one round: goes on, ends for the reason its input gives, or cannot begin |
| AgentController.Controller.RunToInterrupt | src-tauri/src/agent/controller.rs:451-460 | starts a new run and loops; when no write is refused the outcome is the loop's and stored approvals and actions stay |
| AgentController.Controller.SweepApprovals | src-tauri/src/agent/controller.rs:512-519 | invalidates every pending approval and no other, in any order, and terminates; when no write is refused it always gets through |
| AgentController.Controller.ContinueConversation | src-tauri/src/agent/controller.rs:501-546 | a finished run: pending approvals are invalidated, budgets start afresh, verification stays due, and the loop runs; on any other nothing changes |
| AgentController.Controller.RetryAfterFailure | src-tauri/src/agent/controller.rs:463-497 | a failed run: pending approvals are invalidated and the loop runs with its budgets as they are; on any other nothing changes |
| AgentController.Controller.ResumeWithUserInput | src-tauri/src/agent/controller.rs:549-578 | a run waiting for the user: the answer is logged and the loop runs; on any other nothing changes |
| AgentController.Controller.Pause | src-tauri/src/agent/controller.rs:411-431 | pauses exactly from the six read and reason phases, and logs it; elsewhere nothing changes |
| AgentController.Controller.Resume | src-tauri/src/agent/controller.rs:434-445 | a paused run: the loop runs; on any other nothing changes |
| AgentController.Controller.Cancel | src-tauri/src/agent/controller.rs:967-972 | cancels exactly a run that has not ended, and logs it; elsewhere nothing changes |
| AgentController.Controller.Serve | src-tauri/src/agent/controller.rs:411-972 | whatever the service asks of one controller, in any order, the tool budget holds after every call |
| AgentController.Controller.LiveIsReplay | src-tauri/src/agent/controller.rs:895-908 | at every write the controller's flag is what replay gives and the log has no gaps |
| AgentController.Controller.ExecutedOnce | src-tauri/src/agent/controller.rs:786-830 | the controller never executes an action twice |
| AgentController.Controller.QuietBoundary | src-tauri/src/agent/controller.rs:1857-1868 | between methods: exact cursor, at most one pending approval, no repeated command |
| ReadDispatch.Partition | src-tauri/src/agent/dispatch.rs:170-182 | splits a batch into first occurrences, in order, and repeats with their first |
| ReadDispatch.ExecuteReads | src-tauri/src/agent/dispatch.rs:163-203 | one outcome per call, in call order under the call's id: the first of an invocation carries the host's reply, every repeat the same payload, marked as shared |
| ReadDispatch.EachInvocationOnce | src-tauri/src/agent/dispatch.rs:184-187 | every distinct invocation of the batch is executed exactly once |
| Facts.WorkingFacts.UpsertMany | src-tauri/src/agent/facts.rs:90-110 | keys stay unique, readings are last write wins, and the changed keys are exactly those of new readings |
| Facts.ChangesAreNews | src-tauri/src/agent/facts.rs:90-110 | the changed keys are those of exactly the incoming facts that say something new, in order |
| Facts.ReadingIsLast | src-tauri/src/agent/facts.rs:90-110 | a list reads as the last fact of each key |
| Facts.WorkingFacts.InvalidateTarget | src-tauri/src/agent/facts.rs:113-117 | drops exactly the target's facts and counts them |
| Facts.ReadingsUpdate | src-tauri/src/agent/facts.rs:93-104 | replacing a fact in place changes one reading |
| FleetFacts.FleetFactSet.Merge | src-tauri/src/agent/fleet_facts.rs:101-139 | all fresh facts enter or none; succeeds exactly when all are acceptable and the bounds of 512 and 96 hold afterwards; a refusal names the unknown target, the first objection, or the limit |
| FleetFacts.FleetFactSet.Stage | src-tauri/src/agent/fleet_facts.rs:112-119 | the last fresh fact of each key, or the objection to the first that may not enter |
| FleetFacts.StagedIsLast | src-tauri/src/agent/fleet_facts.rs:112-119 | the last fresh fact of every key is staged under it, its value cut to 512 characters and its expiry saturating |
| FleetFacts.StagedOnlyLast | src-tauri/src/agent/fleet_facts.rs:112-119 | and nothing else is staged |
| FleetFacts.ObjectionIff | src-tauri/src/agent/fleet_facts.rs:202-230 | a fact may enter exactly if a tool call observed it on the target under a key of 1 to 192 octets |
| FleetFacts.FleetFactSet.View | src-tauri/src/agent/fleet_facts.rs:141-180 | each live comparable key once, in order, with one row per bound target and the right status |
| FleetFacts.KindOfIff | src-tauri/src/agent/fleet_facts.rs:232-242 | which keys are compared, and as what |
| FleetFacts.RowShows | src-tauri/src/agent/fleet_facts.rs:154-170 | a row shows what is live of its target under the key, with its evidence, or that nothing is |
| FleetFacts.FleetFactSet.RoleComparison | src-tauri/src/agent/fleet_facts.rs:182-199 | compares the targets' roles |
| FleetFacts.ComparisonStatus | src-tauri/src/agent/fleet_facts.rs:244-255 | missing if a value lacks, uniform if all agree, divergent otherwise |
| FleetFacts.InsertKey | src-tauri/src/agent/fleet_facts.rs:148-153 | keys end up in strict order without repeats |
| Artifacts.ArtifactRead | src-tauri/src/agent/artifact.rs:179-202 | the largest window of whole characters in the range; from a boundary it is empty exactly when the character does not fit |
| Artifacts.ArtifactTail | src-tauri/src/agent/artifact.rs:205-222 | the suffix from the first character boundary within the last max octets, hence max - 3 to max octets, or everything |
| Artifacts.ReadAll | src-tauri/src/agent/artifact.rs:179-202 | with room for four octets paging terminates and gives the content back |
| Artifacts.NarrowPageStandsStill | src-tauri/src/agent/artifact.rs:188-197 | with less room some page at the start of content is empty |
| Artifacts.CharAt | src-tauri/src/agent/artifact.rs:193-200 | a character at a boundary ends at a boundary |

## Left out

- Change sets (drafting, execution, verification, rollback of a ChangeSet) and their approvals: the service behind them is not part of this model.
- AgentModel: a write that fails for other reasons than its number (a full disk) is not modelled on the agent side; Fleet transactions may fail.
- AgentController.Controller.DriveLoop: does not say which text each logged event carries, only those the protocol depends on; other events are tags.
- AgentController.Controller.Rehydrate: takes the budgets a checkpoint holds as they are; what checkpoints contain beyond them is not modelled.
- CommandLoop.TokenJaccard: ratios are taken over the reals; that single precision decides alike is proved from how closely it rounds, not from its bits.
- AgentGuarantees.ExtractFinished: yields the finished commands only; summaries, user replies and other observations are not modelled.
- FleetFacts.FleetFactSet.View: live facts are a map; the order in which they are listed is not modelled.
- FleetFacts.FleetFactSet.Merge: freshness and redaction are parameters.
- FleetDrafts.ValidateMetadata: a digest is a value, not text, so the test for 64 hexadecimal characters has no counterpart.
- FleetStorage.FleetTables.LoadFleetRun: the creation time is left out; identifiers order as numbers stand in for their text order; parsing of stored text and corrupt rows are not modelled.
- FleetEventLog.EventTable.Append: sequence numbers are unbounded.
- ReadDispatch.ExecuteReads: the observation cache and the host are one arbitrary reply per position.
- Artifacts.ArtifactRead: the search and the store around it are not modelled.
- FleetService.Service.ClaimChildren: checking that target sessions are still open happens before and is not modelled; child agent-run rows and the events of the step are left out.
- FleetAuthority.EffectKeepsWorld: whether a transaction is accepted is free at every step, which covers the refusals proved in `FleetStorage` and `StoreReachable`; events are appended in `FleetEventLog` only.
- SQL text, schema migration, serialisation, locks, channels, clocks, metrics, and the user interface.
