/**
 What the other coordinator operations answer, with every state written out: when they accept, which
 children and stages move and where to, and where each failure policy takes the run.
 */
module FleetStepAnswer {
  import opened Basics
  import opened FleetModel
  import opened FleetSchedule
  import opened FleetInvariants
  import opened FleetOutcomes
  import opened FleetRuns

  const WORKING: set<StageState> := {StageState.Running, StageState.AwaitingApproval, StageState.Verifying}

  const BLOCKED: set<StageState> := {StageState.Blocked}

  predicate Working(c: Child) {
    c.state in WORKING
  }

  predicate Ended(c: Child) {
    c.state in {StageState.Succeeded, StageState.Failed, StageState.Cancelled, StageState.RolledBack,
      StageState.RollbackFailed}
  }

  /** Every working child has moved to `to`, every other child stayed. */
  ghost predicate WorkingMoved(a: seq<Child>, b: seq<Child>, to: StageState) {
    && |a| == |b|
    && forall i :: 0 <= i < |a| ==> b[i] == if Working(a[i]) then a[i].(state := to) else a[i]
  }

  // ---- record_outcome ------------------------------------------------------------------------

  /** An error code is absent from a success and otherwise 1 to 96 capitals and underscores. */
  predicate Reportable(outcome: ChildOutcome, code: Option<string>) {
    code.Some? ==>
      && outcome != Success
      && 1 <= |code.value| <= 96
      && forall n :: 0 <= n < |code.value| ==> 'A' <= code.value[n] <= 'Z' || code.value[n] == '_'
  }

  /** Some child of the stage has failed, counting the outcome of child `i`. */
  ghost predicate Broken(s: Fleet, i: nat, outcome: ChildOutcome)
    requires i < |s.children|
  {
    outcome == Failure
    || exists j :: 0 <= j < |s.children| && s.children[j].stageId == s.children[i].stageId
                && s.children[j].state == StageState.Failed
  }

  /** Every target of the stage has a success, counting the outcome of child `i`. */
  ghost predicate Finished(s: Fleet, i: nat, outcome: ChildOutcome, targets: seq<Id>)
    requires i < |s.children|
  {
    forall x :: x in targets ==>
      || (outcome == Success && x == s.children[i].targetId)
      || exists j :: 0 <= j < |s.children| && Of(s.children[j], s.children[i].stageId, x)
                  && s.children[j].state == StageState.Succeeded
  }

  /** A sibling in the stage of child `i` still works. */
  ghost predicate Busy(s: Fleet, i: nat)
    requires i < |s.children|
  {
    exists j :: 0 <= j < |s.children| && j != i && s.children[j].stageId == s.children[i].stageId
             && Working(s.children[j])
  }

  /** The stage of the child is judged anew: a failure fails it, success everywhere ends it, work keeps it going. */
  ghost predicate StagesJudged(s: Fleet, t: Fleet, i: nat, outcome: ChildOutcome)
    requires i < |s.children|
  {
    && |t.stages| == |s.stages|
    && forall k :: 0 <= k < |s.stages| ==>
         t.stages[k] == s.stages[k].(state :=
           if s.stages[k].id != s.children[i].stageId then s.stages[k].state
           else if Broken(s, i, outcome) then StageState.Failed
           else if Finished(s, i, outcome, s.stages[k].targetIds) then StageState.Succeeded
           else if Busy(s, i) then StageState.Running
           else s.stages[k].state)
  }

  /** Only child `i` takes the outcome; if the run pauses, every other working child is blocked. */
  ghost predicate ChildrenSettled(s: Fleet, t: Fleet, i: nat, outcome: ChildOutcome, code: Option<string>)
    requires i < |s.children|
  {
    && |t.children| == |s.children|
    && (t.children[i].(state := s.children[i].state) == s.children[i].(errorCode := code))
    && (outcome == Success ==> t.children[i].state == StageState.Succeeded)
    && (outcome == Failure ==> t.children[i].state == StageState.Failed)
    && (outcome == Cancellation ==> t.children[i].state == StageState.Cancelled)
    && forall j :: 0 <= j < |s.children| && j != i ==>
         t.children[j] == if t.state == RunState.PausedForReview && Working(s.children[j])
                          then s.children[j].(state := StageState.Blocked) else s.children[j]
  }

  ghost predicate SomeFailed(stages: seq<Stage>) {
    exists k :: 0 <= k < |stages| && stages[k].state == StageState.Failed
  }

  /** A failed stage invokes the failure policy; otherwise the run verifies once all stages have succeeded. */
  ghost predicate RunFollows(s: Fleet, t: Fleet) {
    if SomeFailed(t.stages) then
      && (s.failurePolicy == Stop ==> t.state == RunState.Failed)
      && (s.failurePolicy == PauseForReview ==> t.state == RunState.PausedForReview)
      && (s.failurePolicy == Rollback ==> t.state == RunState.RollingBack)
      && (s.failurePolicy == Continue ==> t.state == RunState.Executing)
    else if forall k :: 0 <= k < |t.stages| ==> t.stages[k].state == StageState.Succeeded then
      t.state == RunState.Verifying
    else t.state == RunState.Executing
  }

  ghost predicate OutcomeAnswer(
    s: Fleet, t: Fleet, i: nat, outcome: ChildOutcome, code: Option<string>, now: nat)
  {
    && i < |s.children|
    && StagesJudged(s, t, i, outcome)
    && RunFollows(s, t)
    && ChildrenSettled(s, t, i, outcome, code)
    && t == s.(state := t.state, stages := t.stages, children := t.children, updatedAt := now)
  }

  lemma WorkingIsActive(c: Child)
    ensures Working(c) <==> c.state.IsActive()
    ensures Ended(c) <==> c.state.IsSettled()
  {
  }

  lemma OutcomeJudges(s: Fleet, i: nat, outcome: ChildOutcome, code: Option<string>, now: nat)
    requires RunningChild(s.children, i)
    ensures StagesJudged(s, Recorded(s, i, outcome, code, now), i, outcome)
  {
    var b, sid := WithOutcome(s.children, i, outcome, code), s.children[i].stageId;
    OutcomeVerdicts(s.children, i, outcome, code);
    assert HasActiveIn(b, sid) <==> Busy(s, i) by {
      if Busy(s, i) {
        var j :| 0 <= j < |s.children| && j != i && s.children[j].stageId == sid && Working(s.children[j]);
        assert b[j].state.IsActive();
      }
    }
    assert HasFailed(b, sid) <==> Broken(s, i, outcome);
    forall k | 0 <= k < |s.stages| && s.stages[k].id == sid
      ensures AllTargetsSucceeded(b, s.stages[k]) <==> Finished(s, i, outcome, s.stages[k].targetIds)
    {
      forall x
        ensures HasSucceeded(b, sid, x) <==>
          HasSucceeded(s.children, sid, x) || (outcome == Success && Of(s.children[i], sid, x))
      {
      }
    }
  }

  lemma OutcomeRules(s: Fleet, i: nat, outcome: ChildOutcome, code: Option<string>, now: nat)
    requires RunningChild(s.children, i)
    ensures RunFollows(s, Recorded(s, i, outcome, code, now))
  {
    hide RefreshedStages, SettleActive;
    var t := Recorded(s, i, outcome, code, now);
    assert SomeFailed(t.stages) <==> AnyStageFailed(t.stages);
  }

  lemma OutcomeSettles(s: Fleet, i: nat, outcome: ChildOutcome, code: Option<string>, now: nat)
    requires RunningChild(s.children, i)
    ensures ChildrenSettled(s, Recorded(s, i, outcome, code, now), i, outcome, code)
  {
    hide RefreshedStages, AllStagesSucceeded, AnyStageFailed;
    forall j | 0 <= j < |s.children| ensures Working(s.children[j]) <==> s.children[j].state.IsActive() {
      WorkingIsActive(s.children[j]);
    }
  }

  lemma OneOutcomeAnswer(
    s: Fleet, t: Fleet, u: Fleet, i: nat, outcome: ChildOutcome, code: Option<string>, now: nat)
    requires OutcomeAnswer(s, t, i, outcome, code, now) && OutcomeAnswer(s, u, i, outcome, code, now)
    ensures t == u
  {
    hide Broken, Finished, Busy;
    assert t.stages == u.stages;
    assert t.state == u.state;
    assert t.children[i] == u.children[i];
    assert t.children == u.children;
  }

  /**
   An outcome is accepted exactly on a live, executing run, with a fitting code, from an agent run that
   owns a working child; and the run it makes is the one answer to the demands above.
   */
  lemma OutcomeIsTheAnswer(
    s: Fleet, t: Fleet, agent: Id, outcome: ChildOutcome, code: Option<string>, now: nat)
    requires Inv(s)
    ensures RecordOutcome(s, agent, outcome, code, now) == Ok(t) <==>
      && s.recovery == Live && s.state == RunState.Executing && Reportable(outcome, code)
      && exists i :: 0 <= i < |s.children| && s.children[i].agentRunId == Some(agent) && Working(s.children[i])
                  && OutcomeAnswer(s, t, i, outcome, code, now)
    ensures RecordOutcome(s, agent, outcome, code, now).Err? <==>
      || s.recovery != Live || s.state != RunState.Executing || !Reportable(outcome, code)
      || forall i :: 0 <= i < |s.children| && s.children[i].agentRunId == Some(agent) ==> !Working(s.children[i])
    ensures RecordOutcome(s, agent, outcome, code, now).Err? ==>
      RecordOutcome(s, agent, outcome, code, now).error ==
        if s.recovery != Live || s.state != RunState.Executing then InvalidState else InvalidChild
  {
    hide Recorded, OutcomeAnswer, GraphValid, ChildrenPlaced, DependenciesDone, ChildStatesOk, Owned, AttemptsOk,
      StagesOk, Bounded, CanaryFirst, RunStateOk;
    var m := FindRunning(s.children, agent);
    forall i | 0 <= i < |s.children| && s.children[i].agentRunId == Some(agent)
      ensures Working(s.children[i]) <==> i == m
    {
      WorkingIsActive(s.children[i]);
      assert m < |s.children| ==> s.children[m].agentRunId == s.children[i].agentRunId;
    }
    if m < |s.children| {
      WorkingIsActive(s.children[m]);
      RecordedAnswers(s, m, outcome, code, now);
      if OutcomeAnswer(s, t, m, outcome, code, now) {
        OneOutcomeAnswer(s, t, Recorded(s, m, outcome, code, now), m, outcome, code, now);
      }
    }
  }

  lemma RecordedAnswers(s: Fleet, i: nat, outcome: ChildOutcome, code: Option<string>, now: nat)
    requires RunningChild(s.children, i)
    ensures OutcomeAnswer(s, Recorded(s, i, outcome, code, now), i, outcome, code, now)
  {
    hide StagesJudged, RunFollows, ChildrenSettled, RefreshedStages, SettleActive, AnyStageFailed, AllStagesSucceeded;
    OutcomeJudges(s, i, outcome, code, now);
    OutcomeRules(s, i, outcome, code, now);
    OutcomeSettles(s, i, outcome, code, now);
  }

  // ---- Where a failure leads -------------------------------------------------------------------

  /** No coordinator operation is accepted on the run. */
  ghost predicate Closed(t: Fleet)
    requires GraphOk(t)
  {
    forall step :: Apply(t, step).Err?
  }

  /** Every operation but cancelling is refused, and cancelling is accepted. */
  ghost predicate OnlyCancels(t: Fleet)
    requires GraphOk(t)
  {
    forall step :: Apply(t, step).Ok? <==> step.CancelStep?
  }

  lemma EndedIsClosed(t: Fleet)
    requires GraphOk(t) && t.state == RunState.Failed
    ensures Closed(t)
  {
  }

  lemma RollingBackOnlyCancels(t: Fleet)
    requires GraphOk(t) && t.state == RunState.RollingBack && t.recovery == Live
    ensures OnlyCancels(t)
  {
  }

  /**
   Once an outcome leaves a failed stage: under Stop the run has failed and nothing is accepted any more;
   under Rollback it rolls back and only cancelling is; under PauseForReview it is paused with every sibling
   that worked blocked; under Continue it goes on and no sibling is touched.
   */
  lemma FailurePolicyRules(s: Fleet, t: Fleet, agent: Id, outcome: ChildOutcome, code: Option<string>, now: nat)
    requires Inv(s) && RecordOutcome(s, agent, outcome, code, now) == Ok(t)
    requires exists k :: 0 <= k < |t.stages| && t.stages[k].state == StageState.Failed
    ensures GraphOk(t) && |t.children| == |s.children|
    ensures s.failurePolicy == Stop ==> t.state == RunState.Failed && Closed(t)
    ensures s.failurePolicy == Rollback ==> t.state == RunState.RollingBack && OnlyCancels(t)
    ensures s.failurePolicy == PauseForReview ==>
      && t.state == RunState.PausedForReview
      && forall j :: 0 <= j < |s.children| && s.children[j].agentRunId != Some(agent) ==>
           t.children[j] == if Working(s.children[j]) then s.children[j].(state := StageState.Blocked)
                            else s.children[j]
    ensures s.failurePolicy == Continue ==>
      && t.state == RunState.Executing
      && forall j :: 0 <= j < |s.children| && s.children[j].agentRunId != Some(agent) ==>
           t.children[j] == s.children[j]
  {
    hide Inv, RecordOutcome, StagesJudged, Closed, OnlyCancels, GraphValid;
    OutcomeIsTheAnswer(s, t, agent, outcome, code, now);
    assert SomeFailed(t.stages);
    StepKeepsInv(s, OutcomeStep(agent, outcome, code, now));
    InvHasGraph(t);
    if t.state == RunState.Failed {
      EndedIsClosed(t);
    }
    if t.state == RunState.RollingBack {
      RollingBackOnlyCancels(t);
    }
  }

  /**
   A failed child keeps its stage failing: any later outcome there, a success included, leaves the stage
   failed and invokes the policy again, also on a run that was continued after a review.
   */
  lemma FailureRecurs(
    s: Fleet, t: Fleet, agent: Id, outcome: ChildOutcome, code: Option<string>, now: nat, i: nat, j: nat)
    requires Inv(s) && RecordOutcome(s, agent, outcome, code, now) == Ok(t)
    requires i < |s.children| && s.children[i].agentRunId == Some(agent)
    requires j < |s.children| && s.children[j].stageId == s.children[i].stageId
    requires s.children[j].state == StageState.Failed
    ensures exists k :: 0 <= k < |t.stages| && t.stages[k].state == StageState.Failed
    ensures s.failurePolicy == PauseForReview ==> t.state == RunState.PausedForReview
  {
    hide RecordOutcome, GraphValid, DependenciesDone, ChildStatesOk, Owned, AttemptsOk, StagesOk, Bounded, CanaryFirst,
      RunStateOk, Finished, ChildrenSettled;
    OutcomeIsTheAnswer(s, t, agent, outcome, code, now);
    assert Broken(s, i, outcome);
    var k :| 0 <= k < |s.stages| && s.stages[k].id == s.children[i].stageId;
    assert t.stages[k].state == StageState.Failed;
  }

  // ---- pause, cancel, continue_after_review ------------------------------------------------------

  /** Pausing is accepted exactly on a live, executing run, and blocks what works. */
  lemma PauseIsTheAnswer(s: Fleet, t: Fleet, now: nat)
    ensures Pause(s, now) == Ok(t) <==>
      && s.recovery == Live && s.state == RunState.Executing
      && WorkingMoved(s.children, t.children, StageState.Blocked)
      && t == s.(state := RunState.PausedForReview, children := t.children, updatedAt := now)
    ensures Pause(s, now).Ok? || Pause(s, now).error == InvalidState
    ensures s.recovery == Live && s.state == RunState.Executing ==> Pause(s, now).Ok?
  {
    MovedIsSettled(s.children, t.children, StageState.Blocked);
  }

  const CONCLUDED: set<RunState> := {RunState.Succeeded, RunState.Failed, RunState.RolledBack,
    RunState.RollbackFailed, RunState.Interrupted, RunState.Cancelled}

  /** Cancelling is accepted exactly on a live run that has not ended, and cancels what works. */
  lemma CancelIsTheAnswer(s: Fleet, t: Fleet, now: nat)
    ensures Cancel(s, now) == Ok(t) <==>
      && s.recovery == Live
      && s.state !in CONCLUDED
      && WorkingMoved(s.children, t.children, StageState.Cancelled)
      && t == s.(state := RunState.Cancelled, children := t.children, updatedAt := now)
    ensures Cancel(s, now).Ok? || Cancel(s, now).error == InvalidState
    ensures s.recovery == Live && s.state !in CONCLUDED ==> Cancel(s, now).Ok?
  {
    MovedIsSettled(s.children, t.children, StageState.Cancelled);
  }

  lemma MovedIsSettled(a: seq<Child>, b: seq<Child>, to: StageState)
    ensures b == SettleActive(a, to) <==> WorkingMoved(a, b, to)
  {
    forall i | 0 <= i < |a| ensures Working(a[i]) <==> a[i].state.IsActive() {
      WorkingIsActive(a[i]);
    }
    if WorkingMoved(a, b, to) {
      assert b == SettleActive(a, to);
    }
  }

  /** The approval is granted and was bound to what the run is, under the policy in force. */
  predicate Binds(s: Fleet, a: Approval, policyVersion: nat, policyHash: string) {
    && a.state == ApprovalState.Granted
    && a.fleetRunId == s.id && a.fleetVersion == s.version
    && a.graphDigest == s.graphDigest && a.targets == s.targets
    && a.policyVersion == policyVersion && a.policyHash == policyHash
  }

  /** Some target of the stage has no child that ended. */
  ghost predicate Unfinished(s: Fleet, st: Stage) {
    exists x :: x in st.targetIds
      && forall i :: 0 <= i < |s.children| && Of(s.children[i], st.id, x) ==> !Ended(s.children[i])
  }

  /** Exactly the failed and blocked stages with work left run again. */
  ghost predicate StagesReopened(s: Fleet, t: Fleet) {
    && |t.stages| == |s.stages|
    && forall k :: 0 <= k < |s.stages| ==>
         t.stages[k] == if s.stages[k].state in {StageState.Failed, StageState.Blocked} && Unfinished(s, s.stages[k])
                        then s.stages[k].(state := StageState.Running) else s.stages[k]
  }

  lemma UnfinishedIff(s: Fleet, st: Stage)
    ensures Unfinished(s, st) <==> HasUnsettledTarget(s.children, st)
  {
    forall i | 0 <= i < |s.children| ensures Ended(s.children[i]) <==> s.children[i].state.IsSettled() {
      WorkingIsActive(s.children[i]);
    }
    forall x ensures Settled(s.children, st.id, x) <==>
      !forall i :: 0 <= i < |s.children| && Of(s.children[i], st.id, x) ==> !Ended(s.children[i]) {}
  }

  /** Continuing is accepted exactly on a paused run that its granted approval still binds; it touches no child. */
  lemma ContinueIsTheAnswer(s: Fleet, t: Fleet, a: Approval, policyVersion: nat, policyHash: string, now: nat)
    ensures ContinueAfterReview(s, a, policyVersion, policyHash, now) == Ok(t) <==>
      && s.recovery == Live && s.state == RunState.PausedForReview
      && Binds(s, a, policyVersion, policyHash)
      && StagesReopened(s, t)
      && t == s.(state := RunState.Executing, stages := t.stages, updatedAt := now)
    ensures var r := ContinueAfterReview(s, a, policyVersion, policyHash, now);
      && (r.Err? ==> r.error == InvalidAuthority)
      && (r.Ok? <==>
           && s.recovery == Live && s.state == RunState.PausedForReview
           && Binds(s, a, policyVersion, policyHash))
  {
    hide HasUnsettledTarget, Unfinished;
    forall k | 0 <= k < |s.stages|
      ensures Unfinished(s, s.stages[k]) <==> HasUnsettledTarget(s.children, s.stages[k])
    {
      UnfinishedIff(s, s.stages[k]);
    }
    if StagesReopened(s, t) {
      assert t.stages == ReopenedStages(s.stages, s.children);
    }
  }

  /** Claiming is accepted exactly on an approved or executing run that its granted approval still binds. */
  lemma ClaimAcceptedIff(
    s: Fleet, a: Approval, policyVersion: nat, policyHash: string, requested: nat, now: nat, firstId: Id)
    requires GraphOk(s)
    ensures var r := ClaimReady(s, a, policyVersion, policyHash, requested, now, firstId);
      && (r.Ok? <==>
           && s.recovery == Live && s.state in {RunState.Approved, RunState.Executing}
           && Binds(s, a, policyVersion, policyHash))
      && (r.Ok? ==> r.value == if requested == 0 then s else Claimed(s, requested, now, firstId))
      && (r.Err? ==> r.error == InvalidAuthority)
  {
  }

  /** The table of run states, by what each state is entered from. */
  lemma RunStatesEntered(s: RunState, t: RunState)
    ensures s.CanTransitionTo(t) <==> s !in CONCLUDED && match t
      case Draft => false
      case ValidatingTargets => s == RunState.Draft
      case Investigating => s in {RunState.ValidatingTargets, RunState.PausedForReview}
      case Planning =>
        s in {RunState.Investigating, RunState.AwaitingApproval, RunState.Approved, RunState.PausedForReview}
      case AwaitingApproval => s == RunState.Planning
      case Approved => s == RunState.AwaitingApproval
      case Executing => s in {RunState.Approved, RunState.PausedForReview}
      case Verifying => s == RunState.Executing
      case PausedForReview =>
        s in {RunState.Investigating, RunState.Planning, RunState.Executing, RunState.Verifying}
      case Succeeded => s == RunState.Verifying
      case RollingBack => s in {RunState.Executing, RunState.Verifying, RunState.PausedForReview}
      case RolledBack => s == RunState.RollingBack
      case RollbackFailed => s == RunState.RollingBack
      case Failed => true
      case Interrupted => true
      case Cancelled => true
  {
  }

  // ---- The agent runs that are named -------------------------------------------------------------

  /** The agent runs of exactly the children in `states`, in the order of the children; `at` says whose each is. */
  ghost predicate Names(children: seq<Child>, states: set<StageState>, ids: seq<Id>, at: seq<nat>) {
    && |at| == |ids|
    && (forall m, n :: 0 <= m < n < |at| ==> at[m] < at[n])
    && (forall n :: 0 <= n < |at| ==>
         at[n] < |children| && children[at[n]].state in states && children[at[n]].agentRunId == Some(ids[n]))
    && (forall i :: 0 <= i < |children| && children[i].state in states && children[i].agentRunId.Some? ==> i in at)
  }

  lemma NamesFront(children: seq<Child>, states: set<StageState>, ids: seq<Id>, at: seq<nat>)
    requires children != [] && Names(children[..|children| - 1], states, ids, at)
    ensures var last := children[|children| - 1];
      if last.state in states && last.agentRunId.Some?
      then Names(children, states, ids + [last.agentRunId.value], at + [|children| - 1])
      else Names(children, states, ids, at)
  {
    var n := |children| - 1;
    forall i | 0 <= i < n ensures children[..n][i] == children[i] {}
    var more := at + [n];
    assert forall i :: i in at ==> i in more;
    assert more[|at|] == n;
  }

  lemma NamesNone(children: seq<Child>, states: set<StageState>, ids: seq<Id>, at: seq<nat>)
    requires children == [] && ids == [] && at == []
    ensures Names(children, states, ids, at)
  {
  }

  /** Pausing and cancelling name exactly the agent runs of the children that worked. */
  lemma {:induction false} ActiveAgentsNamed(children: seq<Child>) returns (at: seq<nat>)
    ensures Names(children, WORKING, ActiveAgents(children), at)
  {
    hide Names;
    var states := WORKING;
    at := [];
    if children == [] {
      NamesNone(children, states, ActiveAgents(children), at);
    } else {
      at := ActiveAgentsNamed(children[..|children| - 1]);
      var last := children[|children| - 1];
      NamesFront(children, states, ActiveAgents(children[..|children| - 1]), at);
      if last.state in states && last.agentRunId.Some? {
        at := at + [|children| - 1];
      } else {
        assert ActiveAgents(children) == ActiveAgents(children[..|children| - 1]);
      }
    }
  }

  /** Continuing names exactly the agent runs of the blocked children. */
  lemma {:induction false} BlockedAgentsNamed(children: seq<Child>) returns (at: seq<nat>)
    ensures Names(children, BLOCKED, BlockedAgents(children), at)
  {
    hide Names;
    var states := BLOCKED;
    at := [];
    if children == [] {
      NamesNone(children, states, BlockedAgents(children), at);
    } else {
      at := BlockedAgentsNamed(children[..|children| - 1]);
      var last := children[|children| - 1];
      NamesFront(children, states, BlockedAgents(children[..|children| - 1]), at);
      if last.state in states && last.agentRunId.Some? {
        at := at + [|children| - 1];
      } else {
        assert BlockedAgents(children) == BlockedAgents(children[..|children| - 1]);
      }
    }
  }
}
