/** Whole runs of coordinator steps, and what holds at every point of every run. */
module FleetRuns {
  import opened Basics
  import opened FleetModel
  import opened FleetSchedule
  import opened FleetInvariants
  import opened FleetClaims
  import opened FleetClaimKeeps
  import opened FleetOutcomes

  datatype Step =
    | ClaimStep(approval: Approval, policyVersion: nat, policyHash: string, requested: nat, now: nat, firstId: Id)
    | OutcomeStep(agent: Id, outcome: ChildOutcome, code: Option<string>, now: nat)
    | PauseStep(now: nat)
    | ContinueStep(approval: Approval, policyVersion: nat, policyHash: string, now: nat)
    | CancelStep(now: nat)

  ghost function Apply(s: Fleet, step: Step): Result<Fleet, CoordinatorError>
    requires GraphOk(s)
  {
    match step
    case ClaimStep(a, pv, ph, requested, now, firstId) => ClaimReady(s, a, pv, ph, requested, now, firstId)
    case OutcomeStep(agent, outcome, code, now) => RecordOutcome(s, agent, outcome, code, now)
    case PauseStep(now) => Pause(s, now)
    case ContinueStep(a, pv, ph, now) => ContinueAfterReview(s, a, pv, ph, now)
    case CancelStep(now) => Cancel(s, now)
  }

  /** A refused step leaves the Fleet as it was. */
  ghost function After(s: Fleet, step: Step): Fleet
    requires GraphOk(s)
  {
    var r := Apply(s, step);
    if r.Ok? then r.value else s
  }

  /** Agent run ids are minted fresh. */
  ghost predicate Fresh(s: Fleet, step: Step) {
    step.ClaimStep? ==> IdsBelow(s.children, step.firstId)
  }

  lemma StepKeepsInv(s: Fleet, step: Step)
    requires Inv(s) && Fresh(s, step)
    ensures Inv(After(s, step))
  {
    hide Inv, IdsBelow, Claimed, Paused, Continued, CancelledFleet, Recorded, FindRunning, OutcomeCodeOk;
    InvHasGraph(s);
    match step
    case ClaimStep(a, pv, ph, requested, now, firstId) =>
      if Authorized(s, a, pv, ph, {RunState.Approved, RunState.Executing}) && requested != 0 {
        ClaimKeepsInv(s, requested, now, firstId);
      }
    case OutcomeStep(agent, outcome, code, now) =>
      if RecordOutcome(s, agent, outcome, code, now).Ok? {
        RecordKeepsInv(s, FindRunning(s.children, agent), outcome, code, now);
      }
    case PauseStep(now) =>
      if Pause(s, now).Ok? {
        PauseKeepsInv(s, now);
      }
    case ContinueStep(a, pv, ph, now) =>
      if ContinueAfterReview(s, a, pv, ph, now).Ok? {
        ContinueKeepsInv(s, now);
      }
    case CancelStep(now) =>
      CancelKeepsInv(s, now);
  }

  lemma InvHasGraph(s: Fleet)
    requires Inv(s)
    ensures GraphOk(s)
  {
  }

  /** A validated plan before execution has every stage pending and no children. */
  lemma FreshFleetInv(s: Fleet)
    requires GraphOk(s) && s.children == [] && BeforeExecution(s.state)
    requires forall k :: 0 <= k < |s.stages| ==> s.stages[k].state == StageState.Pending
    ensures Inv(s)
  {
    forall k | 0 <= k < |s.stages| ensures StageOk(s.children, s.stages[k]) {
      assert StageValid(s.targets, s.stages, s.stages[k]);
      assert s.stages[k].targetIds[0] in s.stages[k].targetIds;
    }
  }

  /** `states` is a run of `steps`. */
  ghost predicate Run(states: seq<Fleet>, steps: seq<Step>) {
    && |states| == |steps| + 1
    && forall n :: 0 <= n < |steps| ==>
         && GraphOk(states[n])
         && Fresh(states[n], steps[n])
         && states[n + 1] == After(states[n], steps[n])
  }

  /** Every state of every run satisfies the invariant. */
  lemma {:induction false} RunKeepsInv(states: seq<Fleet>, steps: seq<Step>, n: nat)
    requires Run(states, steps) && n < |states|
    requires Inv(states[0])
    ensures Inv(states[n])
  {
    hide Inv, Fresh, After, GraphValid;
    if n > 0 {
      RunKeepsInv(states, steps, n - 1);
      StepKeepsInv(states[n - 1], steps[n - 1]);
    }
  }

  // ---- Exclusive ownership, order and capacity -------------------------------------------

  /** At most one child of a (stage, target) pair is active or settled; the others are blocked. */
  lemma ExclusiveOwnership(s: Fleet, i: nat, j: nat)
    requires Inv(s) && i < |s.children| && j < |s.children|
    requires SamePair(s.children[i], s.children[j])
    requires s.children[i].state.IsActive() || s.children[i].state.IsSettled()
    requires s.children[j].state.IsActive() || s.children[j].state.IsSettled()
    ensures i == j
  {
    hide GraphValid, ChildrenPlaced, DependenciesDone, AttemptsOk, AgentsDistinct, StagesOk, Bounded, CanaryFirst,
      RunStateOk, ChildStatesOk, Owned;
    OneVerdict(s.children, i, j);
  }

  lemma {:induction false} PairCountGrows(children: seq<Child>, i: nat, j: nat)
    requires i < j < |children| && SamePair(children[i], children[j])
    ensures PairCount(children[..i], children[i].stageId, children[i].targetId)
          < PairCount(children[..j], children[j].stageId, children[j].targetId)
  {
    assert children[..j][..j - 1] == children[..j - 1];
    if i < j - 1 {
      PairCountMonotone(children, children[i].stageId, children[i].targetId, i + 1, j - 1);
    }
    assert children[..i + 1][..i] == children[..i];
  }

  lemma {:induction false} PairCountMonotone(children: seq<Child>, sid: Id, tid: Id, i: nat, j: nat)
    requires i <= j <= |children|
    ensures PairCount(children[..i], sid, tid) <= PairCount(children[..j], sid, tid)
  {
    if i < j {
      PairCountMonotone(children, sid, tid, i, j - 1);
      assert children[..j][..j - 1] == children[..j - 1];
    }
  }

  /** Attempts start at 1 and strictly increase along a pair until the 32-bit limit. */
  lemma AttemptsIncrease(s: Fleet, i: nat, j: nat)
    requires Inv(s) && i < j < |s.children| && SamePair(s.children[i], s.children[j])
    ensures 1 <= s.children[i].attempt <= s.children[j].attempt <= MAX_ATTEMPT
    ensures s.children[i].attempt < s.children[j].attempt || s.children[i].attempt == MAX_ATTEMPT
  {
    hide GraphValid, ChildrenPlaced, DependenciesDone, ChildStatesOk, Owned, AgentsDistinct, StagesOk, Bounded,
      CanaryFirst, RunStateOk;
    PairCountGrows(s.children, i, j);
  }

  lemma ChildrenMetadataValid(s: Fleet, i: nat)
    requires Inv(s) && i < |s.children|
    ensures ChildValid(s.targets, s.stages, s.children[i])
  {
    hide DependenciesDone, Owned, AgentsDistinct, StagesOk, Bounded, CanaryFirst, RunStateOk, TargetsValid, Acyclic;
    var c := s.children[i];
    var k :| 0 <= k < |s.stages| && s.stages[k].id == c.stageId;
    assert StageValid(s.targets, s.stages, s.stages[k]);
  }

  /** Durable metadata is valid exactly as long as no pair has reached the attempt limit twice. */
  lemma MetadataValidIffUnsaturated(s: Fleet)
    requires Inv(s)
    ensures MetadataValid(s) <==>
      forall i, j :: 0 <= i < j < |s.children| && SamePair(s.children[i], s.children[j]) ==>
        s.children[i].attempt < MAX_ATTEMPT
  {
    hide GraphValid, ChildrenPlaced, DependenciesDone, ChildStatesOk, Owned, AttemptsOk, AgentsDistinct, StagesOk,
      Bounded, CanaryFirst, RunStateOk, ChildValid;
    forall i, j | 0 <= i < j < |s.children| && SamePair(s.children[i], s.children[j])
      ensures s.children[i].attempt == s.children[j].attempt <==> s.children[i].attempt == MAX_ATTEMPT
      ensures s.children[i].attempt <= MAX_ATTEMPT
    {
      AttemptsIncrease(s, i, j);
    }
    forall i | 0 <= i < |s.children| ensures ChildValid(s.targets, s.stages, s.children[i]) {
      ChildrenMetadataValid(s, i);
    }
  }

  /** The attempt counter saturates: a pair at the limit is leased again under the same key. */
  lemma SaturationRepeatsKey(children: seq<Child>, i: nat)
    requires AttemptsOk(children) && i < |children| && children[i].attempt == MAX_ATTEMPT
    ensures NextAttempt(children, children[i].stageId, children[i].targetId) == MAX_ATTEMPT
  {
    var c := children[i];
    LastAttemptCounts(children, c.stageId, c.targetId);
    assert PairCount(children[..i + 1], c.stageId, c.targetId) >= MAX_ATTEMPT by {
      assert children[..i + 1][..i] == children[..i];
    }
    PairCountMonotone(children, c.stageId, c.targetId, i + 1, |children|);
    assert children[..|children|] == children;
  }

  /** Never more than ten children at once, nor more per stage than its limit. */
  lemma CapacityRespected(s: Fleet, k: nat)
    requires Inv(s) && k < |s.stages|
    ensures ActiveCount(s.children) <= 10
    ensures ActiveIn(s.children, s.stages[k].id) <= s.stages[k].concurrencyLimit
  {
  }

  /** A child exists only after all its stage's dependencies, and its canary, have succeeded. */
  lemma OrderRespected(s: Fleet, i: nat, k: nat)
    requires Inv(s) && i < |s.children| && k < |s.stages| && s.stages[k].id == s.children[i].stageId
    ensures forall m :: 0 <= m < |s.stages| && s.stages[m].id in s.stages[k].dependsOn ==>
      s.stages[m].state == StageState.Succeeded
    ensures s.stages[k].strategy == Canary && s.children[i].targetId != s.stages[k].targetIds[0] ==>
      HasSucceeded(s.children, s.stages[k].id, s.stages[k].targetIds[0])
  {
    hide ChildStatesOk, Owned, AttemptsOk, AgentsDistinct, StagesOk, Bounded, RunStateOk;
    assert StageValid(s.targets, s.stages, s.stages[k]);
    forall m | 0 <= m < |s.stages| && s.stages[m].id in s.stages[k].dependsOn
      ensures s.stages[m].state == StageState.Succeeded
    {
      assert StageSucceeded(s.stages, s.stages[m].id);
    }
  }

  // ---- Succeeded stages are final ---------------------------------------------------------

  ghost predicate KeepsSucceeded(a: Fleet, b: Fleet) {
    && |a.stages| == |b.stages|
    && forall k :: 0 <= k < |a.stages| && a.stages[k].state == StageState.Succeeded ==> b.stages[k] == a.stages[k]
  }

  lemma ClaimKeepsSucceeded(s: Fleet, requested: nat, now: nat, firstId: Id)
    requires GraphOk(s)
    ensures KeepsSucceeded(s, Claimed(s, requested, now, firstId))
    ensures SameGraph(s.stages, Claimed(s, requested, now, firstId).stages)
  {
    hide Leased, GraphValid, ClaimPlan, PickCount, ActiveIn, ActiveCount;
    ClaimedIsLeased(s, requested, now, firstId);
    var t := Claimed(s, requested, now, firstId);
    forall k | 0 <= k < |s.stages| && s.stages[k].state == StageState.Succeeded ensures t.stages[k] == s.stages[k] {
      LeasedKeepsSucceeded(Opened(s, now), t, ClaimPlan(s, requested), firstId, k);
    }
  }

  lemma RecordKeepsSucceeded(s: Fleet, i: nat, outcome: ChildOutcome, code: Option<string>, now: nat)
    requires Inv(s) && RunningChild(s.children, i)
    ensures KeepsSucceeded(s, Recorded(s, i, outcome, code, now))
    ensures SameGraph(s.stages, Recorded(s, i, outcome, code, now).stages)
  {
    hide ChildrenPlaced, DependenciesDone, ChildStatesOk, Owned, AttemptsOk, AgentsDistinct, StagesOk, Bounded,
      CanaryFirst, RunStateOk, SettleActive, RefreshedState, GraphValid, StageOk;
    GraphIsDistinct(s);
    forall k | 0 <= k < |s.stages| && s.stages[k].id == s.children[i].stageId
      ensures s.stages[k].state != StageState.Succeeded
    {
      RefreshedStageOk(s.stages, s.children, i, outcome, code, k);
    }
  }

  lemma StepKeepsSucceeded(s: Fleet, step: Step)
    requires Inv(s) && Fresh(s, step)
    ensures KeepsSucceeded(s, After(s, step))
    ensures SameGraph(s.stages, After(s, step).stages)
  {
    hide Inv, IdsBelow, Claimed, Recorded, FindRunning, OutcomeCodeOk, HasUnsettledTarget;
    InvHasGraph(s);
    match step
    case ClaimStep(a, pv, ph, requested, now, firstId) =>
      ClaimKeepsSucceeded(s, requested, now, firstId);
    case OutcomeStep(agent, outcome, code, now) =>
      if RecordOutcome(s, agent, outcome, code, now).Ok? {
        RecordKeepsSucceeded(s, FindRunning(s.children, agent), outcome, code, now);
      }
    case _ =>
  }

  /** Along any run a stage that has succeeded never changes again. */
  lemma {:induction false} SucceededStagesFrozen(states: seq<Fleet>, steps: seq<Step>, m: nat, n: nat)
    requires Run(states, steps) && Inv(states[0]) && m <= n < |states|
    ensures KeepsSucceeded(states[m], states[n])
    ensures SameGraph(states[m].stages, states[n].stages)
  {
    hide Inv, Fresh, After, GraphValid, SameGraph;
    if m < n {
      SucceededStagesFrozen(states, steps, m, n - 1);
      RunKeepsInv(states, steps, n - 1);
      StepKeepsSucceeded(states[n - 1], steps[n - 1]);
      SameGraphTransitive(states[m].stages, states[n - 1].stages, states[n].stages);
    } else {
      SameGraphReflexive(states[m].stages);
    }
  }

  lemma SameGraphReflexive(a: seq<Stage>)
    ensures SameGraph(a, a)
  {
  }

  lemma SameGraphTransitive(a: seq<Stage>, b: seq<Stage>, c: seq<Stage>)
    requires SameGraph(a, b) && SameGraph(b, c)
    ensures SameGraph(a, c)
  {
  }
}
