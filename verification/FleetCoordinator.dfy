/**
 The coordinator's operations on a mutable Fleet run, loop by loop as they run, each proved to compute
 its function of `FleetSchedule` and to leave the run untouched when it refuses.
 */
module FleetCoordinator {
  import opened Basics
  import opened FleetModel
  import opened FleetSchedule
  import opened FleetInvariants
  import opened FleetClaims
  import opened FleetRuns

  // ---- Reading the children while leases are being added -------------------------------------

  /** None of `born` is a child of the pair. */
  ghost predicate NoneOf(born: seq<Child>, stageId: Id, targetId: Id) {
    forall i :: 0 <= i < |born| ==> !Of(born[i], stageId, targetId)
  }

  ghost predicate NoneIn(born: seq<Child>, stageId: Id) {
    forall i :: 0 <= i < |born| ==> born[i].stageId != stageId
  }

  lemma PairUnaffected(children: seq<Child>, born: seq<Child>, sid: Id, tid: Id)
    requires NoneOf(born, sid, tid)
    ensures Open(children + born, sid, tid) <==> Open(children, sid, tid)
    ensures HasSucceeded(children + born, sid, tid) <==> HasSucceeded(children, sid, tid)
    ensures NextAttempt(children + born, sid, tid) == NextAttempt(children, sid, tid)
  {
    var all := children + born;
    assert forall i :: 0 <= i < |children| ==> all[i] == children[i];
    assert forall i :: |children| <= i < |all| ==> all[i] == born[i - |children|];
    LastAttemptUnaffected(children, born, sid, tid);
  }

  lemma {:induction false} LastAttemptUnaffected(children: seq<Child>, born: seq<Child>, sid: Id, tid: Id)
    requires NoneOf(born, sid, tid)
    ensures LastAttempt(children + born, sid, tid) == LastAttempt(children, sid, tid)
  {
    if born == [] {
      assert children + born == children;
    } else {
      var front := born[..|born| - 1];
      assert (children + born)[..|children + born| - 1] == children + front;
      LastAttemptUnaffected(children, front, sid, tid);
    }
  }

  lemma {:induction false} StageUnaffected(children: seq<Child>, born: seq<Child>, sid: Id)
    requires NoneIn(born, sid)
    ensures ActiveIn(children + born, sid) == ActiveIn(children, sid)
    ensures HasChild(children + born, sid) <==> HasChild(children, sid)
  {
    var all := children + born;
    assert forall i :: 0 <= i < |children| ==> all[i] == children[i];
    if born == [] {
      assert all == children;
    } else {
      var front := born[..|born| - 1];
      assert all[..|all| - 1] == children + front;
      StageUnaffected(children, front, sid);
    }
  }

  /** The children of picks made for other stages, or for other targets, touch neither reading. */
  lemma BornElsewhere(stages: seq<Stage>, children: seq<Child>, plan: seq<Pick>, firstId: Id, k: nat)
    requires DistinctStages(stages) && StagesWithin(plan, 0, |stages|) && k < |stages|
    ensures !Picked(plan, k) ==> NoneIn(ChildrenOf(stages, children, plan, firstId), stages[k].id)
    ensures forall t :: Pick(k, t) !in plan ==> NoneOf(ChildrenOf(stages, children, plan, firstId), stages[k].id, t)
  {
  }

  lemma BornNext(stages: seq<Stage>, children: seq<Child>, plan: seq<Pick>, pick: Pick, firstId: Id)
    requires StagesWithin(plan, 0, |stages|) && pick.stage < |stages|
    ensures ChildrenOf(stages, children, plan + [pick], firstId) ==
      ChildrenOf(stages, children, plan, firstId) + [ChildOf(stages, children, pick, firstId + |plan|)]
  {
  }

  lemma MarkNext(stages: seq<Stage>, plan: seq<Pick>, pick: Pick)
    requires pick.stage < |stages|
    ensures MarkRunning(stages, plan + [pick]) ==
      MarkRunning(stages, plan)[pick.stage := MarkRunning(stages, plan)[pick.stage].(state := StageState.Running)]
  {
    var more := plan + [pick];
    forall k | 0 <= k < |stages| ensures Picked(more, k) <==> Picked(plan, k) || k == pick.stage {
      if Picked(plan, k) {
        var n :| 0 <= n < |plan| && plan[n].stage == k;
        assert more[n].stage == k;
      }
      if k == pick.stage {
        assert more[|plan|].stage == k;
      }
    }
  }

  lemma TaggedNext(k: nat, here: seq<Id>, t: Id)
    ensures Tagged(k, here + [t]) == Tagged(k, here) + [Pick(k, t)]
  {
  }

  // ---- The loop state of a claim ---------------------------------------------------------------

  /** The authority a claim runs under; every lease repeats it. */
  datatype Warrant = Warrant(approval: Approval, policyVersion: nat, policyHash: string)

  ghost function LeasesOf(s: Fleet, w: Warrant, born: seq<Child>): (r: seq<Lease>)
    requires forall n :: 0 <= n < |born| ==> born[n].agentRunId.Some? && HasTarget(s.targets, born[n].targetId)
  {
    seq(|born|, n requires 0 <= n < |born| => LeaseOf(s, w.approval, w.policyVersion, w.policyHash, born[n]))
  }

  ghost predicate Leasable(s: Fleet, born: seq<Child>) {
    forall n :: 0 <= n < |born| ==> born[n].agentRunId.Some? && HasTarget(s.targets, born[n].targetId)
  }

  /** What a claim has built so far: the leases of `plan`, made for the stages `b` and children `s.children`. */
  ghost predicate MidClaim(
    s: Fleet, w: Warrant, b: seq<Stage>, plan: seq<Pick>, firstId: Id,
    stages: seq<Stage>, children: seq<Child>, leases: seq<Lease>)
  {
    && StagesWithin(plan, 0, |b|)
    && stages == MarkRunning(b, plan)
    && children == s.children + ChildrenOf(b, s.children, plan, firstId)
    && Leasable(s, ChildrenOf(b, s.children, plan, firstId))
    && leases == LeasesOf(s, w, ChildrenOf(b, s.children, plan, firstId))
  }

  /** Leasing one more target, read off the current children, is the next step of the plan. */
  lemma MidClaimNext(
    s: Fleet, w: Warrant, b: seq<Stage>, plan: seq<Pick>, firstId: Id,
    stages: seq<Stage>, children: seq<Child>, leases: seq<Lease>, k: nat, t: Id)
    requires MidClaim(s, w, b, plan, firstId, stages, children, leases)
    requires DistinctStages(b) && k < |b| && Pick(k, t) !in plan && HasTarget(s.targets, t)
    ensures |stages| == |b| && |leases| == |plan|
    ensures var c := Child(stages[k].id, t, Some(firstId + |leases|),
        NextAttempt(children, stages[k].id, t), StageState.Running, None);
      MidClaim(s, w, b, plan + [Pick(k, t)], firstId, stages[k := stages[k].(state := StageState.Running)],
        children + [c], leases + [LeaseOf(s, w.approval, w.policyVersion, w.policyHash, c)])
  {
    hide HasTarget, NextAttempt, Picked, MarkRunning, TargetOf;
    var born := ChildrenOf(b, s.children, plan, firstId);
    MarkKeeps(b, plan, k);
    BornElsewhere(b, s.children, plan, firstId, k);
    PairUnaffected(s.children, born, b[k].id, t);
    BornNext(b, s.children, plan, Pick(k, t), firstId);
    MarkNext(b, plan, Pick(k, t));
    assert s.children + (born + [ChildOf(b, s.children, Pick(k, t), firstId + |plan|)])
        == s.children + born + [ChildOf(b, s.children, Pick(k, t), firstId + |plan|)];
  }

  lemma MarkKeeps(b: seq<Stage>, plan: seq<Pick>, k: nat)
    requires k < |b|
    ensures MarkRunning(b, plan)[k] == b[k].(state := MarkRunning(b, plan)[k].state)
    ensures !Picked(plan, k) ==> MarkRunning(b, plan)[k] == b[k]
  {
  }

  /** What the stage readings are worth while its own targets are being leased. */
  lemma MidClaimReads(
    s: Fleet, w: Warrant, b: seq<Stage>, plan: seq<Pick>, firstId: Id,
    stages: seq<Stage>, children: seq<Child>, leases: seq<Lease>, k: nat)
    requires MidClaim(s, w, b, plan, firstId, stages, children, leases)
    requires DistinctStages(b) && k < |b| && b[k].targetIds != [] && !Picked(plan, k)
    ensures |stages| == |b| && stages[k] == b[k]
    ensures ActiveIn(children, b[k].id) == ActiveIn(s.children, b[k].id)
    ensures HasChild(children, b[k].id) <==> HasChild(s.children, b[k].id)
    ensures CanaryPassed(children, b[k]) <==> CanaryPassed(s.children, b[k])
  {
    hide HasTarget, Picked, MarkRunning, TargetOf, LeasesOf;
    var born := ChildrenOf(b, s.children, plan, firstId);
    MarkKeeps(b, plan, k);
    BornElsewhere(b, s.children, plan, firstId, k);
    StageUnaffected(s.children, born, b[k].id);
    PairUnaffected(s.children, born, b[k].id, b[k].targetIds[0]);
  }

  lemma MidClaimOpen(
    s: Fleet, w: Warrant, b: seq<Stage>, plan: seq<Pick>, firstId: Id,
    stages: seq<Stage>, children: seq<Child>, leases: seq<Lease>, k: nat, t: Id)
    requires MidClaim(s, w, b, plan, firstId, stages, children, leases)
    requires DistinctStages(b) && k < |b| && Pick(k, t) !in plan
    ensures Open(children, b[k].id, t) <==> Open(s.children, b[k].id, t)
  {
    hide HasTarget, Picked, MarkRunning, TargetOf, LeasesOf, Open;
    var born := ChildrenOf(b, s.children, plan, firstId);
    BornElsewhere(b, s.children, plan, firstId, k);
    PairUnaffected(s.children, born, b[k].id, t);
  }

  lemma MidClaimSizes(
    s: Fleet, w: Warrant, b: seq<Stage>, plan: seq<Pick>, firstId: Id,
    stages: seq<Stage>, children: seq<Child>, leases: seq<Lease>)
    requires MidClaim(s, w, b, plan, firstId, stages, children, leases)
    ensures |stages| == |b| && |leases| == |plan|
    ensures forall k :: 0 <= k < |b| ==> stages[k].id == b[k].id
  {
  }

  lemma NotYetTaken(plan: seq<Pick>, k: nat, here: seq<Id>, st: Stage, j: nat)
    requires !Picked(plan, k) && j < |st.targetIds| && Distinct(st.targetIds)
    requires forall t :: t in here ==> t in st.targetIds[..j]
    ensures Pick(k, st.targetIds[j]) !in plan + Tagged(k, here)
  {
    var t := st.targetIds[j];
    forall n | 0 <= n < |plan| ensures plan[n] != Pick(k, t) {}
    forall n | 0 <= n < |here| ensures Tagged(k, here)[n] != Pick(k, t) {
      assert here[n] in st.targetIds[..j];
    }
  }

  /** What the stage needs of its graph. */
  ghost predicate StageFit(s: Fleet, b: seq<Stage>, k: nat) {
    && DistinctStages(b) && k < |b|
    && b[k].targetIds != [] && Distinct(b[k].targetIds)
    && forall t :: t in b[k].targetIds ==> HasTarget(s.targets, t)
  }

  /** In the middle of stage `k`: `here` has been taken, all of it before position `j`. */
  ghost predicate MidStage(
    s: Fleet, w: Warrant, b: seq<Stage>, plan: seq<Pick>, firstId: Id,
    stages: seq<Stage>, children: seq<Child>, leases: seq<Lease>, k: nat, here: seq<Id>, j: nat)
  {
    && StageFit(s, b, k) && !Picked(plan, k) && j <= |b[k].targetIds|
    && MidClaim(s, w, b, plan + Tagged(k, here), firstId, stages, children, leases)
    && forall t :: t in here ==> t in b[k].targetIds[..j]
  }

  lemma MidStageReads(
    s: Fleet, w: Warrant, b: seq<Stage>, plan: seq<Pick>, firstId: Id,
    stages: seq<Stage>, children: seq<Child>, leases: seq<Lease>, k: nat, here: seq<Id>, j: nat)
    requires MidStage(s, w, b, plan, firstId, stages, children, leases, k, here, j) && j < |b[k].targetIds|
    ensures |stages| == |b| && stages[k].id == b[k].id && HasTarget(s.targets, b[k].targetIds[j])
    ensures Open(children, b[k].id, b[k].targetIds[j]) <==> Open(s.children, b[k].id, b[k].targetIds[j])
    ensures MidStage(s, w, b, plan, firstId, stages, children, leases, k, here, j + 1)
  {
    hide MidClaim, HasTarget, Open, Picked;
    var t := b[k].targetIds[j];
    NotYetTaken(plan, k, here, b[k], j);
    MidClaimOpen(s, w, b, plan + Tagged(k, here), firstId, stages, children, leases, k, t);
    MidClaimSizes(s, w, b, plan + Tagged(k, here), firstId, stages, children, leases);
    assert b[k].targetIds[..j + 1] == b[k].targetIds[..j] + [t];
  }

  lemma MidStageNext(
    s: Fleet, w: Warrant, b: seq<Stage>, plan: seq<Pick>, firstId: Id,
    stages: seq<Stage>, children: seq<Child>, leases: seq<Lease>, k: nat, here: seq<Id>, j: nat)
    requires MidStage(s, w, b, plan, firstId, stages, children, leases, k, here, j) && j < |b[k].targetIds|
    requires |stages| == |b| && HasTarget(s.targets, b[k].targetIds[j])
    ensures var t := b[k].targetIds[j];
      var c := Child(stages[k].id, t, Some(firstId + |leases|),
        NextAttempt(children, stages[k].id, t), StageState.Running, None);
      MidStage(s, w, b, plan, firstId, stages[k := stages[k].(state := StageState.Running)], children + [c],
        leases + [LeaseOf(s, w.approval, w.policyVersion, w.policyHash, c)], k, here + [t], j + 1)
  {
    hide MidClaim, HasTarget, Picked, NextAttempt, TargetOf, Tagged;
    var t := b[k].targetIds[j];
    NotYetTaken(plan, k, here, b[k], j);
    MidClaimNext(s, w, b, plan + Tagged(k, here), firstId, stages, children, leases, k, t);
    TaggedNext(k, here, t);
    assert plan + Tagged(k, here + [t]) == plan + Tagged(k, here) + [Pick(k, t)];
    assert b[k].targetIds[..j + 1] == b[k].targetIds[..j] + [t];
  }

  lemma MidStageStarts(
    s: Fleet, w: Warrant, b: seq<Stage>, plan: seq<Pick>, firstId: Id,
    stages: seq<Stage>, children: seq<Child>, leases: seq<Lease>, k: nat)
    requires MidClaim(s, w, b, plan, firstId, stages, children, leases) && StageFit(s, b, k) && !Picked(plan, k)
    ensures MidStage(s, w, b, plan, firstId, stages, children, leases, k, [], 0)
  {
    assert plan + Tagged(k, []) == plan;
  }

  lemma MidStageEnds(
    s: Fleet, w: Warrant, b: seq<Stage>, plan: seq<Pick>, firstId: Id,
    stages: seq<Stage>, children: seq<Child>, leases: seq<Lease>, k: nat, here: seq<Id>, j: nat)
    requires MidStage(s, w, b, plan, firstId, stages, children, leases, k, here, j)
    ensures MidClaim(s, w, b, plan + Tagged(k, here), firstId, stages, children, leases)
  {
  }

  lemma StageDone(stages: seq<Stage>, children: seq<Child>, plan: seq<Pick>, k: nat, capacity: nat)
    requires k < |stages| && Targeted(stages) && StagesWithin(plan, 0, k)
    ensures !Picked(plan, k)
    ensures var here := StagePicks(stages, children, k, capacity);
      && StagesWithin(plan + Tagged(k, here), 0, k + 1)
      && plan + Tagged(k, here) + Plan(stages, children, k + 1, capacity - |here|)
           == plan + Plan(stages, children, k, capacity)
  {
    hide StagePicks, Plan;
    var here := StagePicks(stages, children, k, capacity);
    PlanStep(stages, children, k, capacity);
    assert plan + Tagged(k, here) + Plan(stages, children, k + 1, capacity - |here|)
        == plan + (Tagged(k, here) + Plan(stages, children, k + 1, capacity - |here|));
  }

  lemma StageSkipped(stages: seq<Stage>, children: seq<Child>, plan: seq<Pick>, k: nat, capacity: nat)
    requires k < |stages| && Targeted(stages) && StagesWithin(plan, 0, k)
    requires capacity == 0 || !CanStart(stages, stages[k])
    ensures StagesWithin(plan, 0, k + 1)
    ensures plan + Plan(stages, children, k + 1, capacity) == plan + Plan(stages, children, k, capacity)
  {
  }

  lemma MidClaimStarts(s: Fleet, w: Warrant, b: seq<Stage>, firstId: Id)
    ensures MidClaim(s, w, b, [], firstId, b, s.children, [])
  {
  }

  lemma StagesFit(s: Fleet)
    requires GraphOk(s)
    ensures Targeted(BlockedStages(s.stages))
    ensures forall k :: 0 <= k < |s.stages| ==> StageFit(s, BlockedStages(s.stages), k)
  {
  }

  lemma MidClaimStage(
    s: Fleet, w: Warrant, b: seq<Stage>, plan: seq<Pick>, firstId: Id,
    stages: seq<Stage>, children: seq<Child>, leases: seq<Lease>, k: nat)
    requires MidClaim(s, w, b, plan, firstId, stages, children, leases) && k < |b| && !Picked(plan, k)
    ensures |stages| == |b| && stages[k] == b[k]
  {
  }

  lemma MidClaimEnds(
    s: Fleet, w: Warrant, b: seq<Stage>, plan: seq<Pick>, firstId: Id,
    stages: seq<Stage>, children: seq<Child>, leases: seq<Lease>)
    requires MidClaim(s, w, b, plan, firstId, stages, children, leases)
    ensures StagesWithin(plan, 0, |b|) && stages == MarkRunning(b, plan)
    ensures children == s.children + ChildrenOf(b, s.children, plan, firstId)
    ensures Leasable(s, children[|s.children|..]) && leases == LeasesOf(s, w, children[|s.children|..])
  {
  }

  lemma StartsIff(b: seq<Stage>, k: nat, succeeded: set<Id>)
    requires k < |b|
    requires succeeded == set i | 0 <= i < |b| && b[i].state == StageState.Succeeded :: b[i].id
    ensures CanStart(b, b[k]) <==>
      && (b[k].state == StageState.Pending || b[k].state == StageState.Running)
      && forall d :: d in b[k].dependsOn ==> d in succeeded
  {
  }

  lemma PlanEnds(b: seq<Stage>, children: seq<Child>, capacity: nat)
    requires Targeted(b)
    ensures Plan(b, children, |b|, capacity) == []
  {
  }

  lemma NoLeases(s: Fleet, w: Warrant, children: seq<Child>)
    ensures Leasable(s, children[|children|..]) && LeasesOf(s, w, children[|children|..]) == []
  {
  }

  /** One look at one target of the scan. */
  lemma PickStep(children: seq<Child>, st: Stage, j: nat, available: nat)
    requires st.targetIds != [] && j < |st.targetIds|
    ensures var t := st.targetIds[j];
      PickTargets(children, st, j, available) ==
        if available == 0 then []
        else if !Open(children, st.id, t) then PickTargets(children, st, j + 1, available)
        else if st.strategy == Canary && t != st.targetIds[0] && CanaryWaits(children, st) then
          PickTargets(children, st, j + 1, available)
        else if st.strategy == Canary && !CanaryPassed(children, st) then [t]
        else [t] + PickTargets(children, st, j + 1, available - 1)
  {
  }

  predicate CanaryWaits(children: seq<Child>, st: Stage)
    requires st.targetIds != []
  {
    st.strategy == Canary && !CanaryPassed(children, st) && HasChild(children, st.id)
  }

  lemma NothingPast(children: seq<Child>, st: Stage, available: nat)
    requires st.targetIds != []
    ensures PickTargets(children, st, |st.targetIds|, available) == []
  {
  }

  lemma StagePicksScan(b: seq<Stage>, children: seq<Child>, k: nat, capacity: nat, available: nat)
    requires k < |b| && b[k].targetIds != [] && CanStart(b, b[k]) && capacity > 0
    requires available == StageRoom(children, b[k], capacity)
    ensures StagePicks(b, children, k, capacity) == PickTargets(children, b[k], 0, available)
  {
  }

  class FleetRun {
    const id: Id
    const version: nat
    const production: bool
    const failurePolicy: FailurePolicy
    const targets: seq<Target>
    const graphDigest: Digest
    var state: RunState
    var stages: seq<Stage>
    var children: seq<Child>
    var recovery: RecoveryState
    var updatedAt: nat

    function View(): (s: Fleet)
      reads this
    {
      Fleet(id, version, state, production, failurePolicy, targets, stages, children, graphDigest, recovery, updatedAt)
    }

    constructor (s: Fleet)
      ensures View() == s
    {
      id, version, production, failurePolicy := s.id, s.version, s.production, s.failurePolicy;
      targets, graphDigest := s.targets, s.graphDigest;
      state, stages, children, recovery, updatedAt := s.state, s.stages, s.children, s.recovery, s.updatedAt;
    }

    /** The only way the run state changes: along the table, and never on a recovered run. */
    method TransitionTo(next: RunState, now: nat) returns (r: Result<(), PlanError>)
      modifies `state, `updatedAt
      ensures r.Ok? <==> old(recovery) == Live && old(state).CanTransitionTo(next)
      ensures r.Ok? ==> View() == old(View()).(state := next, updatedAt := now)
      ensures r.Err? ==> r.error == InvalidTransition && View() == old(View())
    {
      if recovery != Live || !state.CanTransitionTo(next) {
        return Err(InvalidTransition);
      }
      state := next;
      updatedAt := now;
      r := Ok(());
    }

    method RefreshBlockedStages()
      modifies `stages
      ensures stages == BlockedStages(old(stages))
    {
      var failed := set k | 0 <= k < |stages| && stages[k].state in {StageState.Failed, StageState.Blocked}
                        :: stages[k].id;
      var i := 0;
      while i < |stages|
        invariant 0 <= i <= |stages| == |old(stages)|
        invariant forall x :: x in failed <==> StageStuck(old(stages), x)
        invariant forall k :: 0 <= k < i ==> stages[k] == BlockedStages(old(stages))[k]
        invariant forall k :: i <= k < |stages| ==> stages[k] == old(stages)[k]
      {
        if stages[i].state == StageState.Pending && exists d :: d in stages[i].dependsOn && d in failed {
          stages := stages[i := stages[i].(state := StageState.Blocked)];
        }
        i := i + 1;
      }
    }

    /** `s` is a value of this very run. */
    ghost predicate Describes(s: Fleet) {
      s.id == id && s.version == version && s.targets == targets && s.graphDigest == graphDigest
    }

    /** One lease: the child is pushed, its lease issued, the stage marked running. */
    method PushLease(w: Warrant, k: nat, t: Id, agent: Id) returns (lease: Lease)
      requires k < |stages| && HasTarget(targets, t)
      modifies `children, `stages
      ensures children == old(children) + [Child(old(stages)[k].id, t, Some(agent),
          NextAttempt(old(children), old(stages)[k].id, t), StageState.Running, None)]
      ensures lease == Lease(id, version, graphDigest, w.approval.id, old(stages)[k].id, agent, TargetOf(targets, t),
        NextAttempt(old(children), old(stages)[k].id, t), w.policyVersion, w.policyHash)
      ensures stages == old(stages)[k := old(stages)[k].(state := StageState.Running)]
    {
      var stage := stages[k];
      var target := TargetOf(targets, t);
      var attempt := NextAttempt(children, stage.id, t);
      children := children + [Child(stage.id, t, Some(agent), attempt, StageState.Running, None)];
      lease := Lease(id, version, graphDigest, w.approval.id, stage.id, agent, target, attempt,
        w.policyVersion, w.policyHash);
      stages := stages[k := stage.(state := StageState.Running)];
    }

    /** The targets of one stage, taken in order while slots last. */
    method ClaimStage(
      w: Warrant, k: nat, capacity0: nat, firstId: Id, leases0: seq<Lease>,
      ghost s: Fleet, ghost b: seq<Stage>, ghost plan: seq<Pick>)
      returns (capacity: nat, leases: seq<Lease>)
      requires MidClaim(s, w, b, plan, firstId, stages, children, leases0)
      requires StageFit(s, b, k) && !Picked(plan, k) && CanStart(b, b[k]) && capacity0 > 0
      requires Describes(s)
      modifies `children, `stages
      ensures var here := StagePicks(b, s.children, k, capacity0);
        && MidClaim(s, w, b, plan + Tagged(k, here), firstId, stages, children, leases)
        && capacity == capacity0 - |here|
    {
      hide MidStage, MidClaim, HasTarget, Open, HasSucceeded, HasChild, CanStart, Picked, NextAttempt, TargetOf,
        Tagged, PickTargets, ActiveIn, StagePicks, CanaryReady, CanaryPassed;
      MidClaimReads(s, w, b, plan, firstId, stages, children, leases0, k);
      var stage := stages[k];
      var stageActive := ActiveIn(children, stage.id);
      var strategyCapacity := Minus(stage.concurrencyLimit, stageActive);
      capacity, leases := capacity0, leases0;
      var available := Min(capacity, strategyCapacity);
      if stage.strategy == Sequential && stageActive > 0 {
        available := 0;
      }
      var canaryPassed := CanaryPassed(children, stage);
      var canaryReady := stage.strategy != Canary || canaryPassed || !HasChild(children, stage.id);
      ghost var all := StagePicks(b, s.children, k, capacity0);
      StagePicksScan(b, s.children, k, capacity0, available);
      ghost var here: seq<Id> := [];
      MidStageStarts(s, w, b, plan, firstId, stages, children, leases, k);
      var j := 0;
      while j < |stage.targetIds|
        invariant 0 <= j <= |stage.targetIds|
        invariant capacity == capacity0 - |here|
        invariant MidStage(s, w, b, plan, firstId, stages, children, leases, k, here, j)
        invariant here + PickTargets(s.children, stage, j, available) == all
      {
        PickStep(s.children, stage, j, available);
        if available == 0 {
          break;
        }
        var t := stage.targetIds[j];
        MidStageReads(s, w, b, plan, firstId, stages, children, leases, k, here, j);
        if !Open(children, stage.id, t) {
          j := j + 1;
          continue;
        }
        if stage.strategy == Canary && t != stage.targetIds[0] && !canaryReady {
          j := j + 1;
          continue;
        }
        MidStageNext(s, w, b, plan, firstId, stages, children, leases, k, here, j);
        var lease := PushLease(w, k, t, firstId + |leases|);
        leases := leases + [lease];
        here := here + [t];
        available := available - 1;
        capacity := capacity - 1;
        j := j + 1;
        if stage.strategy == Canary && !canaryPassed {
          break;
        }
      }
      NothingPast(s.children, stage, available);
      assert here == all;
      MidStageEnds(s, w, b, plan, firstId, stages, children, leases, k, here, j);
    }

    predicate ValidateAuthority(w: Warrant, allowed: set<RunState>): (ok: bool)
      reads this
      ensures ok <==> Authorized(View(), w.approval, w.policyVersion, w.policyHash, allowed)
    {
      && recovery == Live
      && state in allowed
      && w.approval.state == Granted
      && w.approval.fleetRunId == id
      && w.approval.fleetVersion == version
      && w.approval.graphDigest == graphDigest
      && w.approval.targets == targets
      && w.approval.policyVersion == w.policyVersion
      && w.approval.policyHash == w.policyHash
    }

    /** The stages in order, each taking what its limits and the remaining slots allow. */
    method ClaimStages(w: Warrant, slots: nat, firstId: Id, ghost s: Fleet) returns (leases: seq<Lease>)
      requires GraphOk(s) && stages == BlockedStages(s.stages) && children == s.children && Describes(s)
      modifies `children, `stages
      ensures Targeted(BlockedStages(s.stages))
      ensures MidClaim(s, w, BlockedStages(s.stages), Plan(BlockedStages(s.stages), s.children, 0, slots), firstId,
        stages, children, leases)
    {
      hide MidClaim, Plan, CanStart, GraphValid, StageFit, BlockedStages, StagePicks;
      StagesFit(s);
      ghost var b := stages;
      var capacity := slots;
      leases := [];
      var succeeded := set k | 0 <= k < |stages| && stages[k].state == StageState.Succeeded :: stages[k].id;
      ghost var plan: seq<Pick> := [];
      ghost var whole := Plan(b, s.children, 0, slots);
      assert plan + whole == whole;
      MidClaimStarts(s, w, b, firstId);
      var k := 0;
      while k < |stages|
        invariant 0 <= k <= |stages| == |b|
        invariant MidClaim(s, w, b, plan, firstId, stages, children, leases)
        invariant StagesWithin(plan, 0, k) && plan + Plan(b, s.children, k, capacity) == whole
      {
        StageDone(b, s.children, plan, k, capacity);
        MidClaimStage(s, w, b, plan, firstId, stages, children, leases, k);
        StartsIff(b, k, succeeded);
        if capacity == 0
           || !(stages[k].state == StageState.Pending || stages[k].state == StageState.Running)
           || !(forall d :: d in stages[k].dependsOn ==> d in succeeded) {
          StageSkipped(b, s.children, plan, k, capacity);
          k := k + 1;
          continue;
        }
        ghost var here := StagePicks(b, s.children, k, capacity);
        capacity, leases := ClaimStage(w, k, capacity, firstId, leases, s, b, plan);
        plan := plan + Tagged(k, here);
        MidClaimSizes(s, w, b, plan, firstId, stages, children, leases);
        k := k + 1;
      }
      PlanEnds(b, s.children, capacity);
      assert plan == whole;
    }

    /** Issues leases for every ready pair the limits allow, stage by stage. */
    method ClaimReady(w: Warrant, requested: nat, now: nat, firstId: Id)
      returns (r: Result<seq<Lease>, CoordinatorError>)
      requires GraphOk(View())
      modifies this
      ensures var spec := FleetSchedule.ClaimReady(
        old(View()), w.approval, w.policyVersion, w.policyHash, requested, now, firstId);
        && (r.Ok? <==> spec.Ok?)
        && (r.Ok? ==> View() == spec.value)
        && (r.Err? ==> r.error == spec.error && View() == old(View()))
      ensures r.Ok? ==>
        && old(children) <= children
        && Leasable(old(View()), children[|old(children)|..])
        && r.value == LeasesOf(old(View()), w, children[|old(children)|..])
    {
      hide MidClaim, Plan, CanStart, GraphValid, LeaseOf, Targeted, LeasesOf, MarkRunning, BlockedStages;
      ghost var s := View();
      if !ValidateAuthority(w, {RunState.Approved, RunState.Executing}) {
        return Err(InvalidAuthority);
      }
      if requested == 0 {
        NoLeases(s, w, children);
        return Ok([]);
      }
      if state == RunState.Approved {
        var moved := TransitionTo(RunState.Executing, now);
        assert moved.Ok?;
      }
      RefreshBlockedStages();
      var active := ActiveCount(children);
      var capacity := Minus(Min(requested, MAX_FLEET_ACTIVE_CHILDREN), active);
      var leases := ClaimStages(w, capacity, firstId, s);
      MidClaimEnds(s, w, BlockedStages(s.stages), Plan(BlockedStages(s.stages), s.children, 0, capacity), firstId,
        stages, children, leases);
      updatedAt := now;
      r := Ok(leases);
    }

    // ---- record_outcome ----------------------------------------------------------------------

    /** Recomputes the one stage an outcome concerns. */
    method RefreshStage(stageId: Id)
      requires DistinctStages(stages)
      modifies `stages
      ensures stages == RefreshedStages(old(stages), children, stageId)
    {
      var k := 0;
      while k < |stages| && stages[k].id != stageId
        invariant 0 <= k <= |stages|
        invariant forall i :: 0 <= i < k ==> stages[i].id != stageId
      {
        k := k + 1;
      }
      if k == |stages| {
        return;
      }
      var stage := stages[k];
      if HasFailed(children, stageId) {
        stages := stages[k := stage.(state := StageState.Failed)];
      } else if forall t :: t in stage.targetIds ==> HasSucceeded(children, stageId, t) {
        stages := stages[k := stage.(state := StageState.Succeeded)];
      } else if HasActiveIn(children, stageId) {
        stages := stages[k := stage.(state := StageState.Running)];
      }
    }

    method ApplyFailurePolicy(now: nat)
      requires recovery == Live && state == RunState.Executing
      modifies `state, `updatedAt
      ensures state == PolicyState(failurePolicy, stages)
    {
      if !AnyStageFailed(stages) {
        return;
      }
      match failurePolicy
      case Stop =>
        var moved := TransitionTo(RunState.Failed, now);
      case PauseForReview =>
        var moved := TransitionTo(RunState.PausedForReview, now);
      case Rollback =>
        var moved := TransitionTo(RunState.RollingBack, now);
      case Continue =>
    }

    /** Moves every active child to `to`, in place. */
    method SettleChildren(to: StageState)
      modifies `children
      ensures children == SettleActive(old(children), to)
    {
      var i := 0;
      while i < |children|
        invariant 0 <= i <= |children| == |old(children)|
        invariant forall n :: 0 <= n < i ==> children[n] == SettleActive(old(children), to)[n]
        invariant forall n :: i <= n < |children| ==> children[n] == old(children)[n]
      {
        if children[i].state.IsActive() {
          children := children[i := children[i].(state := to)];
        }
        i := i + 1;
      }
    }

    method FindChild(agent: Id) returns (i: nat)
      ensures i == FindRunning(children, agent)
    {
      i := 0;
      assert children[0..] == children;
      while i < |children| && !(children[i].agentRunId == Some(agent) && children[i].state.IsActive())
        invariant 0 <= i <= |children|
        invariant FindRunning(children, agent) == i + FindRunning(children[i..], agent)
      {
        assert children[i..][1..] == children[i + 1..];
        i := i + 1;
      }
    }

    /** The run state that follows from the stages: the failure policy first, then completion. */
    method DeriveRunState(now: nat)
      requires recovery == Live && state == RunState.Executing
      modifies `state, `updatedAt, `children
      ensures var next := PolicyState(failurePolicy, stages);
        && children == (if next == RunState.PausedForReview then SettleActive(old(children), StageState.Blocked)
                        else old(children))
        && state == (if next == RunState.Executing && AllStagesSucceeded(stages) then RunState.Verifying else next)
      ensures updatedAt == now
    {
      hide PolicyState, SettleActive, AllStagesSucceeded;
      ApplyFailurePolicy(now);
      if state == RunState.PausedForReview {
        SettleChildren(StageState.Blocked);
      }
      if state == RunState.Executing && AllStagesSucceeded(stages) {
        var moved := TransitionTo(RunState.Verifying, now);
      }
      updatedAt := now;
    }

    /** Settles the child an agent run owns and derives the stage and run states from it. */
    method RecordOutcome(agent: Id, outcome: ChildOutcome, code: Option<string>, now: nat)
      returns (r: Result<(), CoordinatorError>)
      requires DistinctStages(stages)
      modifies this
      ensures var spec := FleetSchedule.RecordOutcome(old(View()), agent, outcome, code, now);
        && (r.Ok? <==> spec.Ok?)
        && (r.Ok? ==> View() == spec.value)
        && (r.Err? ==> r.error == spec.error && View() == old(View()))
    {
      hide RefreshedStages, PolicyState, SettleActive, AllStagesSucceeded, AnyStageFailed, ValidCode, FindRunning,
        DistinctStages;
      if recovery != Live || state != RunState.Executing {
        return Err(InvalidState);
      }
      if (code.Some? && !ValidCode(code.value)) || (outcome == Success && code.Some?) {
        return Err(InvalidChild);
      }
      var i := FindChild(agent);
      if i == |children| {
        return Err(InvalidChild);
      }
      children := children[i := children[i].(state := OutcomeState(outcome), errorCode := code)];
      RefreshStage(children[i].stageId);
      DeriveRunState(now);
      r := Ok(());
    }

    // ---- pause, continue_after_review, cancel ------------------------------------------------

    /** Blocks the active children and returns the agent runs that must stop. */
    method Pause(now: nat) returns (r: Result<seq<Id>, CoordinatorError>)
      modifies this
      ensures var spec := FleetSchedule.Pause(old(View()), now);
        && (r.Ok? <==> spec.Ok?)
        && (r.Ok? ==> View() == spec.value && r.value == ActiveAgents(old(children)))
        && (r.Err? ==> r.error == spec.error && View() == old(View()))
    {
      if recovery != Live || state != RunState.Executing {
        return Err(InvalidState);
      }
      var active := ActiveAgents(children);
      var moved := TransitionTo(RunState.PausedForReview, now);
      SettleChildren(StageState.Blocked);
      r := Ok(active);
    }

    method ReopenStages()
      modifies `stages
      ensures stages == ReopenedStages(old(stages), children)
    {
      hide HasUnsettledTarget, Settled;
      var k := 0;
      while k < |stages|
        invariant 0 <= k <= |stages| == |old(stages)|
        invariant forall n :: 0 <= n < k ==> stages[n] == ReopenedStages(old(stages), children)[n]
        invariant forall n :: k <= n < |stages| ==> stages[n] == old(stages)[n]
      {
        if (stages[k].state == StageState.Failed || stages[k].state == StageState.Blocked)
           && HasUnsettledTarget(children, stages[k]) {
          stages := stages[k := stages[k].(state := StageState.Running)];
        }
        k := k + 1;
      }
    }

    /** Reopens the stages that still have work, under the same approval; returns the blocked agent runs. */
    method ContinueAfterReview(w: Warrant, now: nat) returns (r: Result<seq<Id>, CoordinatorError>)
      modifies this
      ensures var spec := FleetSchedule.ContinueAfterReview(
        old(View()), w.approval, w.policyVersion, w.policyHash, now);
        && (r.Ok? <==> spec.Ok?)
        && (r.Ok? ==> View() == spec.value && r.value == BlockedAgents(old(children)))
        && (r.Err? ==> r.error == spec.error && View() == old(View()))
    {
      hide ReopenedStages, BlockedAgents;
      if !ValidateAuthority(w, {RunState.PausedForReview}) {
        return Err(InvalidAuthority);
      }
      var paused := BlockedAgents(children);
      ReopenStages();
      var moved := TransitionTo(RunState.Executing, now);
      r := Ok(paused);
    }

    method Cancel(now: nat) returns (r: Result<seq<Id>, CoordinatorError>)
      modifies this
      ensures var spec := FleetSchedule.Cancel(old(View()), now);
        && (r.Ok? <==> spec.Ok?)
        && (r.Ok? ==> View() == spec.value && r.value == ActiveAgents(old(children)))
        && (r.Err? ==> r.error == spec.error && View() == old(View()))
    {
      if recovery != Live || state.IsTerminal() {
        return Err(InvalidState);
      }
      var active := ActiveAgents(children);
      SettleChildren(StageState.Cancelled);
      var moved := TransitionTo(RunState.Cancelled, now);
      r := Ok(active);
    }
  }
}
