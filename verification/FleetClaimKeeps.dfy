/** Claiming keeps every part of the Fleet invariant. */
module FleetClaimKeeps {
  import opened Basics
  import opened FleetModel
  import opened FleetSchedule
  import opened FleetInvariants
  import opened FleetClaims

  // ---- Blocking the stages behind a failure ----------------------------------------------

  lemma SucceededUnderBlocking(stages: seq<Stage>, d: Id)
    ensures StageSucceeded(stages, d) <==> StageSucceeded(BlockedStages(stages), d)
  {
    var b := BlockedStages(stages);
    if StageSucceeded(stages, d) {
      var k :| 0 <= k < |stages| && stages[k].id == d && stages[k].state == StageState.Succeeded;
      assert b[k].id == d && b[k].state == StageState.Succeeded;
    }
    if StageSucceeded(b, d) {
      var k :| 0 <= k < |b| && b[k].id == d && b[k].state == StageState.Succeeded;
      assert stages[k].id == d;
    }
  }

  lemma BlockingKeepsStages(s: Fleet)
    requires StagesOk(s.stages, s.children)
    ensures StagesOk(BlockedStages(s.stages), s.children)
  {
  }

  lemma BlockingKeepsPlacement(s: Fleet)
    requires GraphOk(s) && ChildrenPlaced(s.stages, s.children) && DependenciesDone(s.stages, s.children)
    requires CanaryFirst(s.stages, s.children) && Bounded(s.stages, s.children)
    ensures var t := s.(stages := BlockedStages(s.stages));
      GraphOk(t) && ChildrenPlaced(t.stages, t.children) && DependenciesDone(t.stages, t.children)
      && CanaryFirst(t.stages, t.children) && Bounded(t.stages, t.children)
  {
    var t := s.(stages := BlockedStages(s.stages));
    SameGraphValid(s.production, s.targets, s.stages, t.stages);
    forall i | 0 <= i < |t.children| ensures HasStage(t.stages, t.children[i].stageId) {
      SameGraphKeepsIds(s.stages, t.stages, t.children[i].stageId);
    }
    forall i, k, d |
      0 <= i < |t.children| && 0 <= k < |t.stages| && t.stages[k].id == t.children[i].stageId
      && d in t.stages[k].dependsOn
      ensures StageSucceeded(t.stages, d)
    {
      assert StageSucceeded(s.stages, d);
      SucceededUnderBlocking(s.stages, d);
    }
  }

  lemma BlockingLeavesWork(s: Fleet)
    requires GraphOk(s) && RunStateOk(s.state, s.stages, s.children)
    requires s.state in {RunState.Approved, RunState.Executing}
    ensures !AllStagesSucceeded(BlockedStages(s.stages))
  {
    var b := BlockedStages(s.stages);
    if s.state == RunState.Approved {
      assert b[0].state != StageState.Succeeded;
    } else {
      var k :| 0 <= k < |s.stages| && s.stages[k].state != StageState.Succeeded;
      assert b[k].state != StageState.Succeeded;
    }
  }

  /** The Fleet the plan is made for: executing, with the stages behind a failure blocked. */
  function Opened(s: Fleet, now: nat): Fleet {
    s.(stages := BlockedStages(s.stages), state := RunState.Executing, updatedAt := now)
  }

  lemma BlockingKeepsInv(s: Fleet, now: nat)
    requires Inv(s) && s.state in {RunState.Approved, RunState.Executing}
    ensures Inv(Opened(s, now))
  {
    BlockingKeepsStages(s);
    BlockingKeepsPlacement(s);
    BlockingLeavesWork(s);
  }

  // ---- Adding the leased children --------------------------------------------------------

  /** `t` is `s` with the picks of a sound plan leased. */
  ghost predicate Leased(s: Fleet, t: Fleet, plan: seq<Pick>, firstId: Id) {
    && PlanSound(s.stages, s.children, plan)
    && t == s.(stages := MarkRunning(s.stages, plan),
               children := s.children + ChildrenOf(s.stages, s.children, plan, firstId))
  }

  lemma LeasedKeepsSucceeded(s: Fleet, t: Fleet, plan: seq<Pick>, firstId: Id, k: nat)
    requires Leased(s, t, plan, firstId) && k < |s.stages|
    ensures s.stages[k].state == StageState.Succeeded <==> t.stages[k].state == StageState.Succeeded
    ensures s.stages[k].id == t.stages[k].id
  {
  }

  lemma LeasedKeepsGraph(s: Fleet, t: Fleet, plan: seq<Pick>, firstId: Id)
    requires GraphOk(s) && Leased(s, t, plan, firstId)
    ensures GraphOk(t) && SameGraph(s.stages, t.stages)
    ensures forall d :: HasStage(s.stages, d) <==> HasStage(t.stages, d)
    ensures forall d :: StageSucceeded(s.stages, d) ==> StageSucceeded(t.stages, d)
    ensures AllStagesSucceeded(t.stages) ==> AllStagesSucceeded(s.stages)
  {
    hide GraphValid, PlanSound;
    SameGraphValid(s.production, s.targets, s.stages, t.stages);
    forall d ensures HasStage(s.stages, d) <==> HasStage(t.stages, d) {
      SameGraphKeepsIds(s.stages, t.stages, d);
    }
    forall k | 0 <= k < |s.stages|
      ensures s.stages[k].state == StageState.Succeeded <==> t.stages[k].state == StageState.Succeeded
      ensures s.stages[k].id == t.stages[k].id
    {
      LeasedKeepsSucceeded(s, t, plan, firstId, k);
    }
    forall d | StageSucceeded(s.stages, d) ensures StageSucceeded(t.stages, d) {
      var k :| 0 <= k < |s.stages| && s.stages[k].id == d && s.stages[k].state == StageState.Succeeded;
      assert t.stages[k].id == d && t.stages[k].state == StageState.Succeeded;
    }
  }

  /** Where the n-th new child comes from. */
  lemma BornOf(s: Fleet, t: Fleet, plan: seq<Pick>, firstId: Id, i: nat)
    requires Leased(s, t, plan, firstId) && |s.children| <= i < |t.children|
    ensures var n := i - |s.children|;
      && n < |plan| && plan[n].stage < |s.stages|
      && t.children[i] == ChildOf(s.stages, s.children, plan[n], firstId + n)
      && CanStart(s.stages, s.stages[plan[n].stage])
      && Grantable(s.children, s.stages[plan[n].stage], plan[n].targetId)
  {
  }

  lemma LeasedPlaces(s: Fleet, t: Fleet, plan: seq<Pick>, firstId: Id, i: nat)
    requires DistinctStages(s.stages) && ChildrenPlaced(s.stages, s.children) && Leased(s, t, plan, firstId)
    requires i < |t.children|
    ensures HasStage(s.stages, t.children[i].stageId)
    ensures forall k :: 0 <= k < |s.stages| && s.stages[k].id == t.children[i].stageId ==>
      t.children[i].targetId in s.stages[k].targetIds
  {
  }

  lemma LeasedKeepsPlacement(s: Fleet, t: Fleet, plan: seq<Pick>, firstId: Id)
    requires GraphOk(s) && ChildrenPlaced(s.stages, s.children) && Leased(s, t, plan, firstId)
    ensures ChildrenPlaced(t.stages, t.children)
  {
    LeasedKeepsGraph(s, t, plan, firstId);
    forall i | 0 <= i < |t.children|
      ensures HasStage(t.stages, t.children[i].stageId)
      ensures forall k :: 0 <= k < |t.stages| && t.stages[k].id == t.children[i].stageId ==>
        t.children[i].targetId in t.stages[k].targetIds
    {
      LeasedPlaces(s, t, plan, firstId, i);
    }
  }

  lemma LeasedKeepsChildStates(s: Fleet, t: Fleet, plan: seq<Pick>, firstId: Id)
    requires ChildStatesOk(s.children) && Leased(s, t, plan, firstId)
    ensures ChildStatesOk(t.children)
  {
  }

  lemma LeasedKeepsDependencies(s: Fleet, t: Fleet, plan: seq<Pick>, firstId: Id)
    requires GraphOk(s) && DependenciesDone(s.stages, s.children) && Leased(s, t, plan, firstId)
    ensures DependenciesDone(t.stages, t.children)
  {
    LeasedKeepsGraph(s, t, plan, firstId);
    forall i, k, d |
      0 <= i < |t.children| && 0 <= k < |t.stages| && t.stages[k].id == t.children[i].stageId
      && d in t.stages[k].dependsOn
      ensures StageSucceeded(t.stages, d)
    {
      assert s.stages[k].id == t.stages[k].id && s.stages[k].dependsOn == t.stages[k].dependsOn;
      if i < |s.children| {
        assert t.children[i] == s.children[i];
      } else {
        BornOf(s, t, plan, firstId, i);
      }
      assert StageSucceeded(s.stages, d);
    }
  }

  lemma LeasedKeepsOwnership(s: Fleet, t: Fleet, plan: seq<Pick>, firstId: Id)
    requires GraphOk(s) && ChildStatesOk(s.children) && Owned(s.children) && Leased(s, t, plan, firstId)
    ensures Owned(t.children)
  {
    NewPairsDiffer(s.stages, s.children, plan, firstId);
    var born := ChildrenOf(s.stages, s.children, plan, firstId);
    forall i, j | 0 <= i < j < |t.children|
      ensures SamePair(t.children[i], t.children[j]) ==> t.children[i].state == StageState.Blocked
    {
      if j >= |s.children| {
        BornOf(s, t, plan, firstId, j);
        if i < |s.children| {
          assert t.children[i] == s.children[i];
        } else {
          assert !SamePair(born[i - |s.children|], born[j - |s.children|]);
        }
      }
    }
  }

  lemma BornAttempt(s: Fleet, t: Fleet, plan: seq<Pick>, firstId: Id, i: nat)
    requires DistinctStages(s.stages) && AttemptsOk(s.children) && Leased(s, t, plan, firstId)
    requires |s.children| <= i < |t.children|
    ensures t.children[i].attempt
         == Min(PairCount(t.children[..i], t.children[i].stageId, t.children[i].targetId) + 1, MAX_ATTEMPT)
  {
    var n := i - |s.children|;
    var c := t.children[i];
    var before := ChildrenOf(s.stages, s.children, plan, firstId)[..n];
    assert t.children[..i] == s.children + before;
    BornOf(s, t, plan, firstId, i);
    forall m | 0 <= m < n ensures !Of(before[m], c.stageId, c.targetId) {
      NewPairsDiffer(s.stages, s.children, plan, firstId);
    }
    PairCountAppend(s.children, before, c.stageId, c.targetId);
    LastAttemptCounts(s.children, c.stageId, c.targetId);
  }

  lemma LeasedKeepsAttempts(s: Fleet, t: Fleet, plan: seq<Pick>, firstId: Id)
    requires DistinctStages(s.stages) && AttemptsOk(s.children) && Leased(s, t, plan, firstId)
    ensures AttemptsOk(t.children)
  {
    forall i | 0 <= i < |t.children|
      ensures t.children[i].attempt
           == Min(PairCount(t.children[..i], t.children[i].stageId, t.children[i].targetId) + 1, MAX_ATTEMPT)
    {
      if i < |s.children| {
        assert t.children[i] == s.children[i] && t.children[..i] == s.children[..i];
      } else {
        BornAttempt(s, t, plan, firstId, i);
      }
    }
  }

  lemma LeasedKeepsAgents(s: Fleet, t: Fleet, plan: seq<Pick>, firstId: Id)
    requires AgentsDistinct(s.children) && IdsBelow(s.children, firstId) && Leased(s, t, plan, firstId)
    ensures AgentsDistinct(t.children) && IdsBelow(t.children, firstId + |plan|)
  {
    var born := ChildrenOf(s.stages, s.children, plan, firstId);
    forall n | 0 <= n < |born| ensures born[n].agentRunId == Some(firstId + n) {}
  }

  /** Running children neither fail nor succeed anything. */
  lemma LeasedKeepsVerdicts(s: Fleet, t: Fleet, plan: seq<Pick>, firstId: Id)
    requires Leased(s, t, plan, firstId)
    ensures forall sid, tid :: HasSucceeded(s.children, sid, tid) <==> HasSucceeded(t.children, sid, tid)
    ensures forall sid :: HasFailed(s.children, sid) ==> HasFailed(t.children, sid)
    ensures AnyFailed(s.children) ==> AnyFailed(t.children)
  {
    var born := ChildrenOf(s.stages, s.children, plan, firstId);
    forall i | |s.children| <= i < |t.children| ensures t.children[i].state == StageState.Running {
      assert t.children[i] == born[i - |s.children|];
    }
    forall sid, tid ensures HasSucceeded(s.children, sid, tid) <==> HasSucceeded(t.children, sid, tid) {
      if HasSucceeded(s.children, sid, tid) {
        var i :| 0 <= i < |s.children| && Of(s.children[i], sid, tid) && s.children[i].state == StageState.Succeeded;
        assert t.children[i] == s.children[i];
      }
      if HasSucceeded(t.children, sid, tid) {
        var i :| 0 <= i < |t.children| && Of(t.children[i], sid, tid) && t.children[i].state == StageState.Succeeded;
        assert t.children[i] == s.children[i];
      }
    }
    forall sid | HasFailed(s.children, sid) ensures HasFailed(t.children, sid) {
      var i :| 0 <= i < |s.children| && s.children[i].stageId == sid && s.children[i].state == StageState.Failed;
      assert t.children[i] == s.children[i];
    }
    if AnyFailed(s.children) {
      var i :| 0 <= i < |s.children| && s.children[i].state == StageState.Failed;
      assert t.children[i] == s.children[i];
    }
  }

  lemma LeasedStageIsPicked(s: Fleet, t: Fleet, plan: seq<Pick>, firstId: Id, i: nat, k: nat)
    requires GraphOk(s) && Leased(s, t, plan, firstId)
    requires i < |t.children| && k < |s.stages| && t.children[i].stageId == s.stages[k].id
    ensures i < |s.children| || Picked(plan, k)
  {
  }

  lemma LeasedKeepsStages(s: Fleet, t: Fleet, plan: seq<Pick>, firstId: Id)
    requires GraphOk(s) && StagesOk(s.stages, s.children) && Leased(s, t, plan, firstId)
    ensures StagesOk(t.stages, t.children)
  {
    LeasedKeepsVerdicts(s, t, plan, firstId);
    forall k | 0 <= k < |t.stages| ensures StageOk(t.children, t.stages[k]) {
      assert StageOk(s.children, s.stages[k]);
      if Picked(plan, k) {
        var n :| 0 <= n < |plan| && plan[n].stage == k;
        assert CanStart(s.stages, s.stages[plan[n].stage]);
      } else {
        forall i | 0 <= i < |t.children| && t.children[i].stageId == s.stages[k].id
          ensures HasChild(s.children, s.stages[k].id)
        {
          LeasedStageIsPicked(s, t, plan, firstId, i, k);
          assert t.children[i] == s.children[i];
        }
      }
    }
  }

  lemma LeasedStageBounded(s: Fleet, t: Fleet, plan: seq<Pick>, firstId: Id, k: nat)
    requires DistinctStages(s.stages) && Leased(s, t, plan, firstId) && k < |s.stages|
    requires ActiveIn(s.children, s.stages[k].id) <= s.stages[k].concurrencyLimit
    requires PickCount(plan, k) <= Minus(s.stages[k].concurrencyLimit, ActiveIn(s.children, s.stages[k].id))
    ensures ActiveIn(t.children, s.stages[k].id) <= s.stages[k].concurrencyLimit
  {
    var born := ChildrenOf(s.stages, s.children, plan, firstId);
    ActiveInAppend(s.children, born, s.stages[k].id);
    StageCountIsPickCount(s.stages, s.children, plan, firstId, k);
  }

  lemma LeasedKeepsBounds(s: Fleet, t: Fleet, plan: seq<Pick>, firstId: Id)
    requires DistinctStages(s.stages) && Bounded(s.stages, s.children) && Leased(s, t, plan, firstId)
    requires |plan| <= MAX_FLEET_ACTIVE_CHILDREN - ActiveCount(s.children)
    requires forall k :: 0 <= k < |s.stages| ==>
      PickCount(plan, k) <= Minus(s.stages[k].concurrencyLimit, ActiveIn(s.children, s.stages[k].id))
    ensures Bounded(t.stages, t.children)
  {
    ActiveCountAppend(s.children, ChildrenOf(s.stages, s.children, plan, firstId));
    forall k | 0 <= k < |s.stages|
      ensures ActiveIn(t.children, s.stages[k].id) <= s.stages[k].concurrencyLimit
    {
      LeasedStageBounded(s, t, plan, firstId, k);
    }
  }

  lemma LeasedKeepsCanary(s: Fleet, t: Fleet, plan: seq<Pick>, firstId: Id)
    requires DistinctStages(s.stages) && CanaryFirst(s.stages, s.children) && Leased(s, t, plan, firstId)
    ensures CanaryFirst(t.stages, t.children)
  {
    LeasedKeepsVerdicts(s, t, plan, firstId);
    forall i, k |
      0 <= i < |t.children| && 0 <= k < |t.stages| && t.stages[k].id == t.children[i].stageId
      && t.stages[k].strategy == Canary && t.stages[k].targetIds != []
      && t.children[i].targetId != t.stages[k].targetIds[0]
      ensures HasSucceeded(t.children, t.stages[k].id, t.stages[k].targetIds[0])
    {
      if i < |s.children| {
        assert t.children[i] == s.children[i] && s.stages[k].id == s.children[i].stageId;
      } else {
        var n := i - |s.children|;
        assert t.children[i] == ChildOf(s.stages, s.children, plan[n], firstId + n);
        assert plan[n].stage == k;
        assert Grantable(s.children, s.stages[k], plan[n].targetId);
      }
    }
  }

  // ---- claim_ready -----------------------------------------------------------------------

  lemma LeasedKeepsInv(s: Fleet, t: Fleet, plan: seq<Pick>, firstId: Id)
    requires Inv(s) && s.state == RunState.Executing
    requires IdsBelow(s.children, firstId) && Leased(s, t, plan, firstId)
    requires |plan| <= Minus(MAX_FLEET_ACTIVE_CHILDREN, ActiveCount(s.children))
    requires forall k :: 0 <= k < |s.stages| ==>
      PickCount(plan, k) <= Minus(s.stages[k].concurrencyLimit, ActiveIn(s.children, s.stages[k].id))
    ensures Inv(t) && IdsBelow(t.children, firstId + |plan|)
  {
    hide GraphValid, ChildrenPlaced, DependenciesDone, ChildStatesOk, Owned, AttemptsOk, AgentsDistinct, StagesOk,
      CanaryFirst, PlanSound, IdsBelow, MarkRunning, ChildrenOf;
    GraphIsDistinct(s);
    LeasedKeepsGraph(s, t, plan, firstId);
    LeasedKeepsPlacement(s, t, plan, firstId);
    LeasedKeepsChildStates(s, t, plan, firstId);
    LeasedKeepsDependencies(s, t, plan, firstId);
    LeasedKeepsOwnership(s, t, plan, firstId);
    LeasedKeepsAttempts(s, t, plan, firstId);
    LeasedKeepsAgents(s, t, plan, firstId);
    LeasedKeepsStages(s, t, plan, firstId);
    LeasedKeepsBounds(s, t, plan, firstId);
    LeasedKeepsCanary(s, t, plan, firstId);
  }

  /** Claiming is blocking followed by leasing a sound plan that fits. */
  lemma ClaimedIsLeased(s: Fleet, requested: nat, now: nat, firstId: Id)
    requires GraphOk(s)
    ensures Leased(Opened(s, now), Claimed(s, requested, now, firstId), ClaimPlan(s, requested), firstId)
    ensures |ClaimPlan(s, requested)| <= Minus(MAX_FLEET_ACTIVE_CHILDREN, ActiveCount(s.children))
    ensures forall k :: 0 <= k < |s.stages| ==>
      PickCount(ClaimPlan(s, requested), k)
      <= Minus(Opened(s, now).stages[k].concurrencyLimit, ActiveIn(s.children, Opened(s, now).stages[k].id))
  {
    var b := BlockedStages(s.stages);
    assert Targeted(b) && TargetsDistinct(b) by {
      forall k | 0 <= k < |b| ensures b[k].targetIds != [] && Distinct(b[k].targetIds) {
        assert StageValid(s.targets, s.stages, s.stages[k]);
      }
    }
    PlanIsSound(b, s.children, 0, FreeSlots(s, requested));
    forall k | 0 <= k < |s.stages|
      ensures PickCount(ClaimPlan(s, requested), k)
           <= Minus(b[k].concurrencyLimit, ActiveIn(s.children, b[k].id))
    {
      PlanRespectsRoom(b, s.children, 0, FreeSlots(s, requested), k);
    }
  }

  lemma ClaimKeepsInv(s: Fleet, requested: nat, now: nat, firstId: Id)
    requires Inv(s) && IdsBelow(s.children, firstId)
    requires s.state in {RunState.Approved, RunState.Executing}
    ensures Inv(Claimed(s, requested, now, firstId))
    ensures IdsBelow(Claimed(s, requested, now, firstId).children, firstId + |ClaimPlan(s, requested)|)
  {
    hide GraphValid, ChildrenPlaced, DependenciesDone, ChildStatesOk, Owned, AttemptsOk, AgentsDistinct, StagesOk,
      Bounded, CanaryFirst, RunStateOk, Leased, IdsBelow, ClaimPlan, Claimed, BlockedStages, Minus, PickCount,
      ActiveIn, ActiveCount;
    BlockingKeepsInv(s, now);
    ClaimedIsLeased(s, requested, now, firstId);
    LeasedKeepsInv(Opened(s, now), Claimed(s, requested, now, firstId), ClaimPlan(s, requested), firstId);
  }
}
