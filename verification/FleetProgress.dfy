/**
 Progress of a Fleet run: the scheduler never deadlocks, the number of outcomes is bounded, and the run
 is complete exactly when it enters Verifying.
 */
module FleetProgress {
  import opened Basics
  import opened FleetModel
  import opened FleetSchedule
  import opened FleetInvariants
  import opened FleetClaims
  import opened FleetClaimKeeps
  import opened FleetOutcomes
  import opened FleetRuns

  // ---- When a claim issues a lease ---------------------------------------------------------

  /** No child has failed or been cancelled. */
  predicate Unharmed(children: seq<Child>) {
    forall i :: 0 <= i < |children| ==>
      children[i].state != StageState.Failed && children[i].state != StageState.Cancelled
  }

  lemma PlanTakesClaimable(s: Fleet, requested: nat, n: nat)
    requires GraphOk(s) && n < |ClaimPlan(s, requested)|
    ensures Claimable(BlockedStages(s.stages), s.children,
      ClaimPlan(s, requested)[n].stage, ClaimPlan(s, requested)[n].targetId)
  {
    hide PlanSound, Targeted, TargetsDistinct, TargetsValid, Acyclic, Plan;
    var b := BlockedStages(s.stages);
    var plan := ClaimPlan(s, requested);
    var k := plan[n].stage;
    ClaimedIsLeased(s, requested, 0, 0);
    SoundPick(b, s.children, plan, n);
    assert StageValid(s.targets, s.stages, s.stages[k]);
    PickCounted(plan, n);
  }

  lemma SoundPick(stages: seq<Stage>, children: seq<Child>, plan: seq<Pick>, n: nat)
    requires PlanSound(stages, children, plan) && n < |plan|
    ensures plan[n].stage < |stages|
    ensures CanStart(stages, stages[plan[n].stage])
    ensures Grantable(children, stages[plan[n].stage], plan[n].targetId)
  {
  }

  lemma {:induction false} PickCounted(plan: seq<Pick>, n: nat)
    requires n < |plan|
    ensures PickCount(plan, plan[n].stage) > 0
  {
    if n < |plan| - 1 {
      PickCounted(plan[..|plan| - 1], n);
    }
  }

  /** A claim issues a lease exactly when a slot is free and some pair is claimable. */
  lemma ClaimIssuesIff(s: Fleet, requested: nat)
    requires GraphOk(s)
    ensures ClaimPlan(s, requested) != [] <==>
      FreeSlots(s, requested) > 0 && exists k, t :: Claimable(BlockedStages(s.stages), s.children, k, t)
  {
    hide Claimable, GraphValid, FreeSlots;
    var b := BlockedStages(s.stages);
    if ClaimPlan(s, requested) != [] {
      PlanTakesClaimable(s, requested, 0);
    }
    if FreeSlots(s, requested) > 0 {
      if k, t :| Claimable(b, s.children, k, t) {
        ClaimableMakesPlan(s, requested, k, t);
      }
    }
  }

  lemma ClaimableMakesPlan(s: Fleet, requested: nat, k: nat, t: Id)
    requires GraphOk(s) && Claimable(BlockedStages(s.stages), s.children, k, t)
    requires FreeSlots(s, requested) > 0
    ensures ClaimPlan(s, requested) != []
  {
    hide Acyclic, TargetsValid, Claimable;
    var b := BlockedStages(s.stages);
    forall i | 0 <= i < |b| ensures b[i].targetIds != [] {
      assert StageValid(s.targets, s.stages, s.stages[i]);
    }
    ClaimableInRange(b, s.children, k, t);
    PlanMakesProgress(b, s.children, 0, FreeSlots(s, requested), k, t);
  }

  lemma ClaimableInRange(stages: seq<Stage>, children: seq<Child>, k: nat, t: Id)
    requires Claimable(stages, children, k, t)
    ensures k < |stages|
  {
  }

  // ---- The scheduler never deadlocks -------------------------------------------------------

  /** Below any open stage there is an open stage whose dependencies have all succeeded. */
  lemma {:induction false} LowestOpenStage(s: Fleet, rank: map<Id, nat>, k: nat) returns (m: nat)
    requires GraphOk(s) && Ranked(s.stages, rank) && k < |s.stages|
    requires s.stages[k].state != StageState.Succeeded
    ensures m < |s.stages| && s.stages[m].state != StageState.Succeeded
    ensures forall d :: d in s.stages[m].dependsOn ==> StageSucceeded(s.stages, d)
    decreases if s.stages[k].id in rank then rank[s.stages[k].id] else 0
  {
    if d :| d in s.stages[k].dependsOn && !StageSucceeded(s.stages, d) {
      assert StageValid(s.targets, s.stages, s.stages[k]);
      var j :| 0 <= j < |s.stages| && s.stages[j].id == d;
      m := LowestOpenStage(s, rank, j);
    } else {
      m := k;
    }
  }

  lemma UnharmedNeverBlocks(s: Fleet, k: nat)
    requires StagesOk(s.stages, s.children) && Unharmed(s.children) && k < |s.stages|
    ensures BlockedStages(s.stages)[k] == s.stages[k]
    ensures s.stages[k].state in {StageState.Pending, StageState.Running, StageState.Succeeded}
  {
  }

  /** In an idle, unharmed Fleet an open stage always has a grantable target. */
  lemma OpenStageHasTarget(s: Fleet, m: nat) returns (t: Id)
    requires StagesOk(s.stages, s.children) && ChildStatesOk(s.children)
    requires Unharmed(s.children) && NoneActive(s.children)
    requires m < |s.stages| && s.stages[m].state != StageState.Succeeded && s.stages[m].targetIds != []
    ensures Grantable(s.children, s.stages[m], t)
  {
    var st := s.stages[m];
    assert StageOk(s.children, st);
    if st.strategy == Canary && !CanaryPassed(s.children, st) {
      t := st.targetIds[0];
    } else {
      t :| t in st.targetIds && !HasSucceeded(s.children, st.id, t);
    }
  }

  /**
   With valid authority, no child active and none failed or cancelled, a claim of at least one slot
   issues at least one lease.
   */
  lemma SchedulerProgress(s: Fleet, requested: nat)
    requires Inv(s) && s.state in {RunState.Approved, RunState.Executing}
    requires requested > 0 && NoneActive(s.children) && Unharmed(s.children)
    ensures ClaimPlan(s, requested) != []
  {
    hide ChildrenPlaced, DependenciesDone, Owned, AttemptsOk, AgentsDistinct, Bounded, CanaryFirst, StageOk,
      BlockedStages, Grantable, StageSucceeded, StagesOk, Unharmed, ChildStatesOk, NoneActive;
    var rank :| Ranked(s.stages, rank);
    var k := OpenStage(s);
    var m := LowestOpenStage(s, rank, k);
    assert StageValid(s.targets, s.stages, s.stages[m]);
    var t := OpenStageHasTarget(s, m);
    ActiveCountZero(s.children);
    IdleStage(s, m);
    UnharmedNeverBlocks(s, m);
    forall d | d in s.stages[m].dependsOn ensures StageSucceeded(BlockedStages(s.stages), d) {
      SucceededUnderBlocking(s.stages, d);
    }
    assert Claimable(BlockedStages(s.stages), s.children, m, t);
    ClaimIssuesIff(s, requested);
  }

  lemma OpenStage(s: Fleet) returns (k: nat)
    requires GraphOk(s) && RunStateOk(s.state, s.stages, s.children)
    requires s.state in {RunState.Approved, RunState.Executing}
    ensures k < |s.stages| && s.stages[k].state != StageState.Succeeded
  {
    if s.state == RunState.Approved {
      k := 0;
    } else {
      k :| 0 <= k < |s.stages| && s.stages[k].state != StageState.Succeeded;
    }
  }

  lemma IdleStage(s: Fleet, m: nat)
    requires NoneActive(s.children) && m < |s.stages|
    ensures ActiveIn(s.children, s.stages[m].id) == 0
  {
    ActiveInZero(s.children, s.stages[m].id);
  }

  // ---- Completion --------------------------------------------------------------------------

  /** Every target of every stage has a succeeded child. */
  ghost predicate Complete(stages: seq<Stage>, children: seq<Child>) {
    forall k :: 0 <= k < |stages| ==> AllTargetsSucceeded(children, stages[k])
  }

  lemma CompleteIffAllSucceeded(stages: seq<Stage>, children: seq<Child>)
    requires StagesOk(stages, children)
    ensures Complete(stages, children) <==> AllStagesSucceeded(stages)
  {
  }

  /** An outcome moves the run to Verifying exactly when it completes every pair. */
  lemma VerifyingExactlyWhenComplete(s: Fleet, agent: Id, outcome: ChildOutcome, code: Option<string>, now: nat)
    requires Inv(s) && RecordOutcome(s, agent, outcome, code, now).Ok?
    ensures var t := RecordOutcome(s, agent, outcome, code, now).value;
      t.state == RunState.Verifying <==> Complete(t.stages, t.children)
  {
    var i := FindRunning(s.children, agent);
    var t := Recorded(s, i, outcome, code, now);
    RecordKeepsInv(s, i, outcome, code, now);
    hide ChildrenPlaced, DependenciesDone, ChildStatesOk, Owned, AttemptsOk, AgentsDistinct, StagesOk, Bounded,
      CanaryFirst, GraphValid, SettleActive, RefreshedState, Complete, OutcomeCodeOk, RunStateOk, NoneActive;
    CompleteIffAllSucceeded(t.stages, t.children);
    if AnyStageFailed(t.stages) {
      FailedNotComplete(t.stages);
    }
  }

  // ---- How many outcomes a run can have ----------------------------------------------------

  function SettledCount(children: seq<Child>): (n: nat) {
    if children == [] then 0
    else
      var last := |children| - 1;
      SettledCount(children[..last]) + if children[last].state.IsSettled() then 1 else 0
  }

  function TotalPairs(stages: seq<Stage>): (n: nat) {
    if stages == [] then 0
    else TotalPairs(stages[..|stages| - 1]) + |stages[|stages| - 1].targetIds|
  }

  ghost function PairsOf(id: Id, targets: seq<Id>): (p: set<(Id, Id)>) {
    set t | t in targets :: (id, t)
  }

  ghost function AllPairs(stages: seq<Stage>): (p: set<(Id, Id)>) {
    if stages == [] then {}
    else
      var last := |stages| - 1;
      AllPairs(stages[..last]) + PairsOf(stages[last].id, stages[last].targetIds)
  }

  lemma {:induction false} PairsOfBounded(id: Id, targets: seq<Id>)
    ensures |PairsOf(id, targets)| <= |targets|
  {
    if targets != [] {
      var n := |targets| - 1;
      PairsOfBounded(id, targets[..n]);
      assert targets == targets[..n] + [targets[n]];
      assert PairsOf(id, targets) == PairsOf(id, targets[..n]) + {(id, targets[n])};
      UnionCardinality(PairsOf(id, targets[..n]), {(id, targets[n])});
    }
  }

  lemma {:induction false} AllPairsBounded(stages: seq<Stage>)
    ensures |AllPairs(stages)| <= TotalPairs(stages)
    ensures forall k, t :: 0 <= k < |stages| && t in stages[k].targetIds ==> (stages[k].id, t) in AllPairs(stages)
  {
    if stages != [] {
      var front := stages[..|stages| - 1];
      AllPairsBounded(front);
      var last := stages[|stages| - 1];
      PairsOfBounded(last.id, last.targetIds);
      UnionCardinality(AllPairs(front), PairsOf(last.id, last.targetIds));
      forall k, t | 0 <= k < |stages| && t in stages[k].targetIds
        ensures (stages[k].id, t) in AllPairs(stages)
      {
        if k < |front| {
          assert front[k] == stages[k];
        }
      }
    }
  }

  ghost function SettledPairs(children: seq<Child>): (p: set<(Id, Id)>) {
    set i | 0 <= i < |children| && children[i].state.IsSettled() :: (children[i].stageId, children[i].targetId)
  }

  lemma SettledPairsStep(children: seq<Child>)
    requires children != []
    ensures var n := |children| - 1;
      var pair := (children[n].stageId, children[n].targetId);
      SettledPairs(children) ==
        SettledPairs(children[..n]) + if children[n].state.IsSettled() then {pair} else {}
  {
  }

  lemma {:induction false} SettledAreDistinct(children: seq<Child>)
    requires Owned(children)
    ensures |SettledPairs(children)| == SettledCount(children)
  {
    if children != [] {
      var n := |children| - 1;
      SettledAreDistinct(children[..n]);
      SettledPairsStep(children);
      if children[n].state.IsSettled() {
        forall i | 0 <= i < n && SamePair(children[i], children[n]) ensures !children[..n][i].state.IsSettled() {
          assert children[i].state == StageState.Blocked;
        }
        assert (children[n].stageId, children[n].targetId) !in SettledPairs(children[..n]);
      }
    }
  }

  /** No more children ever settle than there are (stage, target) pairs. */
  lemma SettledBounded(s: Fleet)
    requires Inv(s)
    ensures SettledCount(s.children) <= TotalPairs(s.stages)
  {
    hide GraphValid, DependenciesDone, ChildStatesOk, Owned, AttemptsOk, AgentsDistinct, StagesOk, Bounded,
      CanaryFirst, RunStateOk;
    SettledAreDistinct(s.children);
    AllPairsBounded(s.stages);
    forall i | 0 <= i < |s.children|
      ensures (s.children[i].stageId, s.children[i].targetId) in AllPairs(s.stages)
    {
      var k :| 0 <= k < |s.stages| && s.stages[k].id == s.children[i].stageId;
    }
    SubsetCardinality(SettledPairs(s.children), AllPairs(s.stages));
  }

  /** Settled children stay; `gained` more settle. */
  lemma {:induction false} SettledCountGrows(a: seq<Child>, b: seq<Child>)
    requires StateChange(a, b)
    ensures SettledCount(a) <= SettledCount(b)
    ensures (exists i :: 0 <= i < |a| && a[i].state.IsActive() && b[i].state.IsSettled()) ==>
      SettledCount(a) < SettledCount(b)
  {
    if a != [] {
      var n := |a| - 1;
      SettledCountGrows(a[..n], b[..n]);
      if i :| 0 <= i < |a| && a[i].state.IsActive() && b[i].state.IsSettled() {
        if i < n {
          assert a[..n][i].state.IsActive() && b[..n][i].state.IsSettled();
        }
      }
    }
  }

  lemma {:induction false} SettledCountAppend(a: seq<Child>, b: seq<Child>)
    requires forall i :: 0 <= i < |b| ==> !b[i].state.IsSettled()
    ensures SettledCount(a + b) == SettledCount(a)
  {
    if b == [] {
      assert a + b == a;
    } else {
      assert (a + b)[..|a + b| - 1] == a + b[..|b| - 1];
      SettledCountAppend(a, b[..|b| - 1]);
    }
  }

  lemma RecordSettles(s: Fleet, agent: Id, outcome: ChildOutcome, code: Option<string>, now: nat)
    requires RecordOutcome(s, agent, outcome, code, now).Ok?
    ensures SettledCount(RecordOutcome(s, agent, outcome, code, now).value.children) > SettledCount(s.children)
  {
    hide RefreshedStages, PolicyState, AllStagesSucceeded, AnyStageFailed, OutcomeCodeOk, SettledCount, ValidCode;
    var i := FindRunning(s.children, agent);
    var b := WithOutcome(s.children, i, outcome, code);
    var c := SettleActive(b, StageState.Blocked);
    assert StateChange(s.children, b) && b[i].state.IsSettled();
    assert StateChange(s.children, c) && c[i].state.IsSettled();
    SettledCountGrows(s.children, b);
    SettledCountGrows(s.children, c);
  }

  lemma StepSettles(s: Fleet, step: Step)
    requires GraphOk(s)
    ensures SettledCount(After(s, step).children)
      >= SettledCount(s.children) + if step.OutcomeStep? && Apply(s, step).Ok? then 1 else 0
  {
    hide GraphValid, FindRunning, OutcomeCodeOk, AllStagesSucceeded;
    match step
    case ClaimStep(a, pv, ph, requested, now, firstId) =>
      var stages := BlockedStages(s.stages);
      var born := ChildrenOf(stages, s.children, ClaimPlan(s, requested), firstId);
      SettledCountAppend(s.children, born);
    case OutcomeStep(agent, outcome, code, now) =>
      if RecordOutcome(s, agent, outcome, code, now).Ok? {
        RecordSettles(s, agent, outcome, code, now);
      }
    case PauseStep(now) =>
      SettledCountGrows(s.children, SettleActive(s.children, StageState.Blocked));
    case ContinueStep(a, pv, ph, now) =>
    case CancelStep(now) =>
      SettledCountGrows(s.children, SettleActive(s.children, StageState.Cancelled));
  }

  /** The accepted outcome reports among the first `n` steps of a run. */
  ghost function AcceptedOutcomes(states: seq<Fleet>, steps: seq<Step>, n: nat): (count: nat)
    requires Run(states, steps) && n <= |steps|
  {
    if n == 0 then 0
    else
      AcceptedOutcomes(states, steps, n - 1)
      + if steps[n - 1].OutcomeStep? && Apply(states[n - 1], steps[n - 1]).Ok? then 1 else 0
  }

  lemma {:induction false} OutcomesSettle(states: seq<Fleet>, steps: seq<Step>, n: nat)
    requires Run(states, steps) && n <= |steps|
    ensures AcceptedOutcomes(states, steps, n) <= SettledCount(states[n].children)
  {
    hide After, Apply, GraphValid, Fresh;
    if n > 0 {
      OutcomesSettle(states, steps, n - 1);
      StepSettles(states[n - 1], steps[n - 1]);
    }
  }

  lemma {:induction false} TotalPairsSameGraph(a: seq<Stage>, b: seq<Stage>)
    requires SameGraph(a, b)
    ensures TotalPairs(a) == TotalPairs(b)
  {
    if a != [] {
      var n := |a| - 1;
      assert a[n].(state := b[n].state) == b[n];
      TotalPairsSameGraph(a[..n], b[..n]);
    }
  }

  /** Over any run, accepted outcomes never exceed the number of (stage, target) pairs. */
  lemma OutcomesBounded(states: seq<Fleet>, steps: seq<Step>)
    requires Run(states, steps) && Inv(states[0])
    ensures AcceptedOutcomes(states, steps, |steps|) <= TotalPairs(states[0].stages)
  {
    hide Inv, Run;
    RunLength(states, steps);
    var n := |steps|;
    OutcomesSettle(states, steps, n);
    RunKeepsInv(states, steps, n);
    SettledBounded(states[n]);
    SucceededStagesFrozen(states, steps, 0, n);
    TotalPairsSameGraph(states[0].stages, states[n].stages);
  }

  lemma RunLength(states: seq<Fleet>, steps: seq<Step>)
    requires Run(states, steps)
    ensures |states| == |steps| + 1
  {
  }
}
