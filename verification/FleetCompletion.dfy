/**
 Liveness of a Fleet run: while its authority lasts, a run can still reach Verifying exactly when no
 child has failed or been cancelled, and every schedule that claims when idle and reports success when
 busy then gets there. A failed child is never replaced, so one failure is final.
 */
module FleetCompletion {
  import opened Basics
  import opened FleetModel
  import opened FleetSchedule
  import opened FleetInvariants
  import opened FleetClaims
  import opened FleetClaimKeeps
  import opened FleetOutcomes
  import opened FleetRuns
  import opened FleetProgress

  const RESUMABLE: set<RunState> := {RunState.Approved, RunState.Executing, RunState.PausedForReview}

  /** Some run of coordinator steps leads from `s` to Verifying. */
  ghost predicate CanComplete(s: Fleet) {
    exists states, steps :: CompletingRun(s, states, steps)
  }

  ghost predicate CompletingRun(s: Fleet, states: seq<Fleet>, steps: seq<Step>) {
    Run(states, steps) && states[0] == s && states[|steps|].state == RunState.Verifying
  }

  // ---- A harmed run never completes --------------------------------------------------------

  ghost predicate KeepsSettled(a: seq<Child>, b: seq<Child>) {
    && |a| <= |b|
    && forall i :: 0 <= i < |a| && a[i].state.IsSettled() ==> b[i] == a[i]
  }

  lemma StepKeepsSettled(s: Fleet, step: Step)
    requires GraphOk(s)
    ensures KeepsSettled(s.children, After(s, step).children)
  {
    hide GraphValid, ClaimPlan, OutcomeCodeOk, AllStagesSucceeded, PolicyState, RefreshedStages, ReopenedStages;
  }

  lemma {:induction false} SettledStay(states: seq<Fleet>, steps: seq<Step>, n: nat)
    requires Run(states, steps) && n <= |steps|
    ensures KeepsSettled(states[0].children, states[n].children)
  {
    hide After, GraphValid, Fresh;
    if n > 0 {
      SettledStay(states, steps, n - 1);
      StepKeepsSettled(states[n - 1], steps[n - 1]);
    }
  }

  lemma VerifyingIsUnharmed(s: Fleet)
    requires Inv(s) && s.state == RunState.Verifying
    ensures Unharmed(s.children)
  {
    hide GraphValid, DependenciesDone, ChildStatesOk, Owned, AttemptsOk, AgentsDistinct, Bounded, CanaryFirst,
      NoneActive;
    forall i | 0 <= i < |s.children|
      ensures s.children[i].state != StageState.Failed && s.children[i].state != StageState.Cancelled
    {
      var k :| 0 <= k < |s.stages| && s.stages[k].id == s.children[i].stageId;
      assert StageOk(s.children, s.stages[k]);
      var j :| 0 <= j < |s.children| && Of(s.children[j], s.stages[k].id, s.children[i].targetId)
        && s.children[j].state == StageState.Succeeded;
      if s.children[i].state.IsSettled() {
        OneVerdict(s.children, i, j);
      }
    }
  }

  lemma CompletingMeansUnharmed(s: Fleet, states: seq<Fleet>, steps: seq<Step>)
    requires Inv(s) && CompletingRun(s, states, steps)
    ensures Unharmed(s.children)
  {
    hide Inv, Run;
    RunLength(states, steps);
    SettledStay(states, steps, |steps|);
    RunKeepsInv(states, steps, |steps|);
    VerifyingIsUnharmed(states[|steps|]);
  }

  // ---- An unharmed run completes -----------------------------------------------------------

  lemma {:induction false} FreshSupply(children: seq<Child>) returns (firstId: Id)
    ensures IdsBelow(children, firstId)
  {
    firstId := 0;
    if children != [] {
      var last := |children| - 1;
      firstId := FreshSupply(children[..last]);
      if children[last].agentRunId.Some? && firstId <= children[last].agentRunId.value {
        firstId := children[last].agentRunId.value + 1;
      }
      assert children == children[..last] + [children[last]];
    }
  }

  lemma RunPrepend(s: Fleet, step: Step, states: seq<Fleet>, steps: seq<Step>)
    requires GraphOk(s) && Fresh(s, step)
    requires CompletingRun(After(s, step), states, steps)
    ensures CompletingRun(s, [s] + states, [step] + steps)
  {
    hide After, GraphValid, Fresh;
    var longer, more := [s] + states, [step] + steps;
    forall n | 0 <= n < |more|
      ensures GraphOk(longer[n]) && Fresh(longer[n], more[n]) && longer[n + 1] == After(longer[n], more[n])
    {
      if n > 0 {
        assert longer[n] == states[n - 1] && more[n] == steps[n - 1];
      }
    }
  }

  lemma NoStageFails(stages: seq<Stage>, children: seq<Child>)
    requires StagesOk(stages, children) && Unharmed(children)
    ensures !AnyStageFailed(stages)
  {
  }

  ghost predicate SameRun(s: Fleet, t: Fleet) {
    t == s.(state := t.state, stages := t.stages, children := t.children, updatedAt := t.updatedAt)
  }

  /** An idle run gets a lease. */
  lemma ClaimAdvances(s: Fleet, requested: nat, now: nat, firstId: Id)
    requires Inv(s) && s.state in {RunState.Approved, RunState.Executing} && requested > 0
    requires NoneActive(s.children) && Unharmed(s.children) && IdsBelow(s.children, firstId)
    ensures var t := Claimed(s, requested, now, firstId);
      && Inv(t) && t.state == RunState.Executing && SameRun(s, t)
      && Unharmed(t.children) && !NoneActive(t.children)
      && SettledCount(t.children) == SettledCount(s.children)
      && TotalPairs(t.stages) == TotalPairs(s.stages)
  {
    hide ChildrenPlaced, DependenciesDone, ChildStatesOk, Owned, AttemptsOk, AgentsDistinct, StagesOk, Bounded,
      CanaryFirst, RunStateOk, GraphValid, ClaimPlan, BlockedStages, MarkRunning, SettledCount, TotalPairs;
    var t := Claimed(s, requested, now, firstId);
    ClaimKeepsInv(s, requested, now, firstId);
    SchedulerProgress(s, requested);
    ClaimKeepsSucceeded(s, requested, now, firstId);
    TotalPairsSameGraph(s.stages, t.stages);
    var born := t.children[|s.children|..];
    assert t.children == s.children + born;
    SettledCountAppend(s.children, born);
    assert t.children[|s.children|].state.IsActive();
  }

  lemma {:induction false} OneMoreSettles(children: seq<Child>, i: nat, c: Child)
    requires i < |children| && !children[i].state.IsSettled() && c.state.IsSettled()
    ensures SettledCount(children[i := c]) == SettledCount(children) + 1
  {
    var n := |children| - 1;
    if i < n {
      OneMoreSettles(children[..n], i, c);
      assert children[i := c][..n] == children[..n][i := c];
    } else {
      assert children[i := c][..n] == children[..n];
    }
  }

  /** An accepted success settles one pair and harms nothing. */
  lemma SuccessKeeps(s: Fleet, agent: Id, now: nat)
    requires Inv(s) && Unharmed(s.children) && RecordOutcome(s, agent, Success, None, now).Ok?
    ensures var t := RecordOutcome(s, agent, Success, None, now).value;
      && Inv(t) && t.state in {RunState.Executing, RunState.Verifying} && SameRun(s, t)
      && Unharmed(t.children)
      && SettledCount(t.children) == SettledCount(s.children) + 1
      && TotalPairs(t.stages) == TotalPairs(s.stages)
  {
    hide ChildrenPlaced, DependenciesDone, ChildStatesOk, Owned, AttemptsOk, StagesOk, Bounded,
      CanaryFirst, RunStateOk, GraphValid, RefreshedStages, AllStagesSucceeded, SettledCount, TotalPairs;
    var i := FindRunning(s.children, agent);
    var b := WithOutcome(s.children, i, Success, None);
    var t := Recorded(s, i, Success, None, now);
    RecordKeepsInv(s, i, Success, None, now);
    RecordKeepsSucceeded(s, i, Success, None, now);
    TotalPairsSameGraph(s.stages, t.stages);
    GraphIsDistinct(s);
    RefreshKeepsTree(s.stages, s.children, i, Success, None);
    assert Unharmed(b);
    NoStageFails(t.stages, b);
    OneMoreSettles(s.children, i, b[i]);
  }

  /** A busy run accepts a success of one of its agents. */
  lemma SuccessAdvances(s: Fleet) returns (agent: Id)
    requires Inv(s) && s.state == RunState.Executing && s.recovery == Live && !NoneActive(s.children)
    ensures RecordOutcome(s, agent, Success, None, 0).Ok?
  {
    hide ChildrenPlaced, DependenciesDone, ChildStatesOk, Owned, AttemptsOk, StagesOk, Bounded,
      CanaryFirst, RunStateOk, GraphValid;
    var j :| 0 <= j < |s.children| && s.children[j].state.IsActive();
    agent := s.children[j].agentRunId.value;
  }

  // ---- Every diligent schedule completes -----------------------------------------------------

  /** Continues when paused, claims when idle, and reports success when busy. */
  predicate Diligent(s: Fleet, step: Step) {
    match step
    case ContinueStep(a, pv, ph, _) => Authorized(s, a, pv, ph, {RunState.PausedForReview})
    case ClaimStep(a, pv, ph, requested, _, _) =>
      Authorized(s, a, pv, ph, {RunState.Approved, RunState.Executing}) && requested > 0 && NoneActive(s.children)
    case OutcomeStep(agent, outcome, code, now) =>
      outcome == Success && code == None && RecordOutcome(s, agent, outcome, code, now).Ok?
    case _ => false
  }

  /** A run that has not gone wrong: it can still be worked on, or it is complete. */
  ghost predicate OnTrack(s: Fleet) {
    Inv(s) && Unharmed(s.children) && s.state in RESUMABLE + {RunState.Verifying}
  }

  function OpenPairs(s: Fleet): int {
    TotalPairs(s.stages) - SettledCount(s.children)
  }

  /** What every diligent step uses up. */
  function WorkLeft(s: Fleet): int {
    2 * OpenPairs(s) + (if NoneActive(s.children) then 1 else 0) + if s.state == RunState.PausedForReview then 1 else 0
  }

  lemma DiligentStep(s: Fleet, step: Step)
    requires OnTrack(s) && Diligent(s, step) && Fresh(s, step)
    ensures GraphOk(s) && Apply(s, step).Ok? && SameRun(s, After(s, step))
    ensures OnTrack(After(s, step)) && WorkLeft(After(s, step)) < WorkLeft(s)
    ensures OpenPairs(After(s, step)) == OpenPairs(s) - if step.OutcomeStep? then 1 else 0
  {
    hide Inv, Unharmed, NoneActive, Claimed, TotalPairs, SettledCount, IdsBelow, Recorded, Continued, FindRunning;
    InvHasGraph(s);
    match step
    case ContinueStep(a, pv, ph, now) =>
      ContinueKeepsInv(s, now);
      ContinuedSame(s, now);
    case ClaimStep(a, pv, ph, requested, now, firstId) =>
      ClaimAdvances(s, requested, now, firstId);
    case OutcomeStep(agent, outcome, code, now) =>
      SuccessKeeps(s, agent, now);
  }

  ghost predicate DiligentRun(states: seq<Fleet>, steps: seq<Step>) {
    Run(states, steps) && OnTrack(states[0]) && forall n :: 0 <= n < |steps| ==> Diligent(states[n], steps[n])
  }

  lemma {:induction false} DiligentRunStays(states: seq<Fleet>, steps: seq<Step>, n: nat)
    requires DiligentRun(states, steps) && n <= |steps|
    ensures OnTrack(states[n]) && SameRun(states[0], states[n])
    ensures n + WorkLeft(states[n]) <= WorkLeft(states[0])
    ensures OpenPairs(states[n]) == OpenPairs(states[0]) - AcceptedOutcomes(states, steps, n)
  {
    hide OnTrack, Diligent, WorkLeft, OpenPairs, After, Apply, Fresh, GraphValid;
    if n > 0 {
      DiligentRunStays(states, steps, n - 1);
      DiligentStep(states[n - 1], steps[n - 1]);
    }
  }

  /** A run on track is verifying exactly when no pair is open. */
  lemma VerifyingIffNoneOpen(s: Fleet)
    requires OnTrack(s)
    ensures OpenPairs(s) >= 0
    ensures s.state == RunState.Verifying <==> OpenPairs(s) == 0
  {
    hide ChildrenPlaced, DependenciesDone, AttemptsOk, AgentsDistinct, Bounded, CanaryFirst, GraphValid,
      NoneActive, StagesOk, AllStagesSucceeded, SettledCount, TotalPairs, Complete, Owned, ChildStatesOk, Unharmed;
    SettledBounded(s);
    CompleteIffAllSucceeded(s.stages, s.children);
    CompleteIffAllSettled(s);
    if s.state == RunState.Approved {
      ApprovedIsOpen(s);
    }
  }

  lemma ApprovedIsOpen(s: Fleet)
    requires GraphOk(s) && s.children == []
    ensures !Complete(s.stages, s.children)
  {
    assert StageValid(s.targets, s.stages, s.stages[0]);
    assert s.stages[0].targetIds[0] in s.stages[0].targetIds;
    assert !AllTargetsSucceeded(s.children, s.stages[0]);
  }

  ghost predicate Planned(stages: seq<Stage>, pair: (Id, Id)) {
    exists k :: 0 <= k < |stages| && stages[k].id == pair.0 && pair.1 in stages[k].targetIds
  }

  lemma PlannedLater(stages: seq<Stage>, pair: (Id, Id))
    requires stages != [] && Planned(stages[..|stages| - 1], pair)
    ensures Planned(stages, pair)
    ensures DistinctStages(stages) ==> pair.0 != stages[|stages| - 1].id
  {
    var front := stages[..|stages| - 1];
    var k :| 0 <= k < |front| && front[k].id == pair.0 && pair.1 in front[k].targetIds;
    assert stages[k] == front[k];
  }

  /** With distinct stages and targets there are as many pairs as target entries. */
  lemma {:induction false} AllPairsExact(stages: seq<Stage>)
    requires DistinctStages(stages) && forall k :: 0 <= k < |stages| ==> Distinct(stages[k].targetIds)
    ensures |AllPairs(stages)| == TotalPairs(stages)
    ensures forall pair :: pair in AllPairs(stages) ==> Planned(stages, pair)
  {
    if stages != [] {
      hide Planned;
      var n := |stages| - 1;
      var front, last := stages[..n], stages[n];
      AllPairsExact(front);
      PairsOfExact(last.id, last.targetIds);
      forall pair | pair in AllPairs(front)
        ensures Planned(stages, pair) && pair !in PairsOf(last.id, last.targetIds)
      {
        PlannedLater(stages, pair);
      }
      assert AllPairs(front) !! PairsOf(last.id, last.targetIds);
      forall pair | pair in PairsOf(last.id, last.targetIds) ensures Planned(stages, pair) {
        PlannedLast(stages, pair.1);
      }
    }
  }

  lemma PlannedLast(stages: seq<Stage>, t: Id)
    requires stages != [] && t in stages[|stages| - 1].targetIds
    ensures Planned(stages, (stages[|stages| - 1].id, t))
  {
  }

  lemma {:induction false} PairsOfExact(id: Id, targets: seq<Id>)
    requires Distinct(targets)
    ensures |PairsOf(id, targets)| == |targets|
  {
    if targets != [] {
      var n := |targets| - 1;
      PairsOfExact(id, targets[..n]);
      assert PairsOf(id, targets) == PairsOf(id, targets[..n]) + {(id, targets[n])};
      assert (id, targets[n]) !in PairsOf(id, targets[..n]);
    }
  }

  /** Every pair has its succeeded child exactly when as many children have settled as there are pairs. */
  lemma CompleteIffAllSettled(s: Fleet)
    requires Inv(s) && Unharmed(s.children)
    ensures Complete(s.stages, s.children) <==> SettledCount(s.children) == TotalPairs(s.stages)
  {
    hide DependenciesDone, AttemptsOk, AgentsDistinct, StagesOk, Bounded, CanaryFirst, RunStateOk, SettledCount,
      TotalPairs, AllPairs, Acyclic, TargetsValid;
    forall k | 0 <= k < |s.stages| ensures Distinct(s.stages[k].targetIds) {
      assert StageValid(s.targets, s.stages, s.stages[k]);
    }
    AllPairsExact(s.stages);
    AllPairsBounded(s.stages);
    SettledAreDistinct(s.children);
    SettledInPairs(s);
    if Complete(s.stages, s.children) {
      CompleteSettlesAll(s.stages, s.children);
      assert SettledPairs(s.children) == AllPairs(s.stages);
    }
    if SettledCount(s.children) == TotalPairs(s.stages) {
      SubsetCardinality(SettledPairs(s.children), AllPairs(s.stages));
      AllSettledCompletes(s.stages, s.children);
    }
  }

  lemma SettledInPairs(s: Fleet)
    requires ChildrenPlaced(s.stages, s.children)
    ensures SettledPairs(s.children) <= AllPairs(s.stages)
  {
    AllPairsBounded(s.stages);
    forall i | 0 <= i < |s.children|
      ensures (s.children[i].stageId, s.children[i].targetId) in AllPairs(s.stages)
    {
      var k :| 0 <= k < |s.stages| && s.stages[k].id == s.children[i].stageId;
    }
  }

  lemma CompleteSettlesAll(stages: seq<Stage>, children: seq<Child>)
    requires Complete(stages, children) && DistinctStages(stages)
    requires forall k :: 0 <= k < |stages| ==> Distinct(stages[k].targetIds)
    ensures AllPairs(stages) <= SettledPairs(children)
  {
    AllPairsExact(stages);
    forall pair | pair in AllPairs(stages) ensures pair in SettledPairs(children) {
      var k :| 0 <= k < |stages| && stages[k].id == pair.0 && pair.1 in stages[k].targetIds;
      assert AllTargetsSucceeded(children, stages[k]);
      assert HasSucceeded(children, stages[k].id, pair.1);
    }
  }

  lemma AllSettledCompletes(stages: seq<Stage>, children: seq<Child>)
    requires SettledPairs(children) == AllPairs(stages) && Unharmed(children) && ChildStatesOk(children)
    ensures Complete(stages, children)
  {
    AllPairsBounded(stages);
    forall k, t | 0 <= k < |stages| && t in stages[k].targetIds ensures HasSucceeded(children, stages[k].id, t) {
      assert (stages[k].id, t) in SettledPairs(children);
    }
  }

  /**
   Every diligent schedule completes. It is never longer than the work left, it has reached Verifying exactly
   when as many successes were accepted as pairs were open, and `DiligentStepExists` lets it go on until then.
   */
  lemma DiligentCompletes(states: seq<Fleet>, steps: seq<Step>)
    requires DiligentRun(states, steps)
    ensures |steps| <= WorkLeft(states[0])
    ensures AcceptedOutcomes(states, steps, |steps|) <= OpenPairs(states[0])
    ensures states[|steps|].state == RunState.Verifying <==>
      AcceptedOutcomes(states, steps, |steps|) == OpenPairs(states[0])
  {
    hide OnTrack, OpenPairs, Diligent, Run, SameRun;
    RunLength(states, steps);
    DiligentRunStays(states, steps, |steps|);
    VerifyingIffNoneOpen(states[|steps|]);
  }

  /** While a run on track under a valid approval is not verifying, some diligent step can be taken. */
  lemma DiligentStepExists(s: Fleet, a: Approval, policyVersion: nat, policyHash: string) returns (step: Step)
    requires OnTrack(s) && Authorized(s, a, policyVersion, policyHash, RESUMABLE)
    ensures Diligent(s, step) && Fresh(s, step)
  {
    hide Inv, Unharmed, NoneActive, RecordOutcome;
    if s.state == RunState.PausedForReview {
      step := ContinueStep(a, policyVersion, policyHash, 0);
    } else if NoneActive(s.children) {
      var firstId := FreshSupply(s.children);
      step := ClaimStep(a, policyVersion, policyHash, 1, 0, firstId);
    } else {
      RunsOnlyExecuting(s);
      var agent := SuccessAdvances(s);
      step := OutcomeStep(agent, Success, None, 0);
    }
  }

  /** So an unharmed run completes: take diligent steps until it verifies. */
  lemma {:induction false} UnharmedCompletes(s: Fleet, a: Approval, policyVersion: nat, policyHash: string)
    returns (states: seq<Fleet>, steps: seq<Step>)
    requires OnTrack(s) && Authorized(s, a, policyVersion, policyHash, RESUMABLE)
    ensures CompletingRun(s, states, steps)
    decreases WorkLeft(s)
  {
    hide OnTrack, Diligent, WorkLeft, After, Apply, Fresh, Run, OpenPairs, GraphOk;
    var step := DiligentStepExists(s, a, policyVersion, policyHash);
    DiligentStep(s, step);
    var t := After(s, step);
    WorkIsLeft(t);
    if t.state == RunState.Verifying {
      states, steps := [t], [];
      OneStateRun(t);
    } else {
      TrackStates(t);
      states, steps := UnharmedCompletes(t, a, policyVersion, policyHash);
    }
    RunPrepend(s, step, states, steps);
    states, steps := [s] + states, [step] + steps;
  }

  lemma WorkIsLeft(s: Fleet)
    requires OnTrack(s)
    ensures WorkLeft(s) >= 0
  {
    hide Inv, Unharmed, SettledCount, TotalPairs;
    SettledBounded(s);
  }

  lemma TrackStates(s: Fleet)
    requires OnTrack(s)
    ensures s.state in RESUMABLE + {RunState.Verifying}
  {
  }

  lemma OneStateRun(t: Fleet)
    requires t.state == RunState.Verifying
    ensures CompletingRun(t, [t], [])
  {
  }

  lemma ContinuedSame(s: Fleet, now: nat)
    requires Inv(s)
    ensures var t := Continued(s, now);
      && SameRun(s, t) && t.children == s.children && t.state == RunState.Executing
      && TotalPairs(t.stages) == TotalPairs(s.stages)
  {
    hide TotalPairs, Inv, HasUnsettledTarget;
    TotalPairsSameGraph(s.stages, Continued(s, now).stages);
  }

  lemma RunsOnlyExecuting(s: Fleet)
    requires Inv(s) && s.state in {RunState.Approved, RunState.Executing}
    requires !NoneActive(s.children)
    ensures s.state == RunState.Executing
  {
    hide GraphValid, ChildrenPlaced, DependenciesDone, ChildStatesOk, Owned, AttemptsOk, AgentsDistinct, StagesOk,
      Bounded, CanaryFirst;
  }

  /** A run under a valid approval can still be completed exactly while no child failed or was cancelled. */
  lemma CompletableIffUnharmed(s: Fleet, a: Approval, policyVersion: nat, policyHash: string)
    requires Inv(s) && Authorized(s, a, policyVersion, policyHash, RESUMABLE)
    ensures CanComplete(s) <==> Unharmed(s.children)
  {
    hide Inv, Unharmed, CompletingRun;
    if states, steps :| CompletingRun(s, states, steps) {
      CompletingMeansUnharmed(s, states, steps);
    }
    if Unharmed(s.children) {
      var states, steps := UnharmedCompletes(s, a, policyVersion, policyHash);
    }
  }

  // ---- The invariant is inhabited ----------------------------------------------------------

  /** A two-target plan in which nothing has run, and the same plan with its first lease out. */
  lemma SampleFleets() returns (idle: Fleet, busy: Fleet)
    ensures Inv(idle) && idle.state == RunState.Approved && Unharmed(idle.children)
    ensures Inv(busy) && busy.state == RunState.Executing && !NoneActive(busy.children) && Unharmed(busy.children)
  {
    var targets := [Target(1, 11, None, 0), Target(2, 12, None, 1)];
    var stages := [Stage(5, "inspect", [1, 2], [], RollingBatch, 2, StageState.Pending)];
    idle := Fleet(7, 1, RunState.Approved, true, Stop, targets, stages, [],
      Digest(true, Stop, targets, stages), Live, 0);
    SamplePlan(targets, stages);
    FreshFleetInv(idle);
    ClaimAdvances(idle, 1, 0, 0);
    busy := Claimed(idle, 1, 0, 0);
  }

  lemma SamplePlan(targets: seq<Target>, stages: seq<Stage>)
    requires targets == [Target(1, 11, None, 0), Target(2, 12, None, 1)]
    requires stages == [Stage(5, "inspect", [1, 2], [], RollingBatch, 2, StageState.Pending)]
    ensures GraphValid(true, targets, stages)
  {
    assert targets[0].profileId == 1 && targets[1].profileId == 2;
    assert Ranked(stages, map[]);
  }
}
