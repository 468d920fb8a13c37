/** Values of a Fleet run: the stage graph, the child runs, and the run-state table. */
module FleetModel {
  import opened Basics

  const MAX_FLEET_STAGES: nat := 64
  const MIN_FLEET_TARGETS: nat := 2
  const MAX_FLEET_TARGETS: nat := 10
  const MAX_STAGE_SUMMARY_BYTES: nat := 512
  const MAX_FLEET_ACTIVE_CHILDREN: nat := 10
  /** Attempts are 32-bit and saturate. */
  const MAX_ATTEMPT: nat := 0xFFFF_FFFF

  datatype RunState =
    | Draft | ValidatingTargets | Investigating | Planning | AwaitingApproval | Approved
    | Executing | Verifying | PausedForReview | Succeeded | Failed | RollingBack | RolledBack
    | RollbackFailed | Interrupted | Cancelled
  {
    predicate IsTerminal() {
      Succeeded? || Failed? || RolledBack? || RollbackFailed? || Interrupted? || Cancelled?
    }

    predicate CanTransitionTo(next: RunState) {
      if IsTerminal() then false
      else if next.Cancelled? || next.Failed? || next.Interrupted? then true
      else match this
        case Draft => next.ValidatingTargets?
        case ValidatingTargets => next.Investigating?
        case Investigating => next.Planning? || next.PausedForReview?
        case Planning => next.AwaitingApproval? || next.PausedForReview?
        case AwaitingApproval => next.Approved? || next.Planning?
        case Approved => next.Executing? || next.Planning?
        case Executing => next.Verifying? || next.PausedForReview? || next.RollingBack?
        case Verifying => next.Succeeded? || next.PausedForReview? || next.RollingBack?
        case PausedForReview => next.Investigating? || next.Planning? || next.Executing? || next.RollingBack?
        case RollingBack => next.RolledBack? || next.RollbackFailed?
        case _ => false
    }
  }

  datatype StageState =
    | Pending | Ready | Running | AwaitingApproval | Verifying | Succeeded | Failed | Blocked
    | Cancelled | RollbackPending | RolledBack | RollbackFailed
  {
    predicate IsActive() {
      Running? || AwaitingApproval? || Verifying?
    }

    predicate IsSettled() {
      Succeeded? || Failed? || Cancelled? || RolledBack? || RollbackFailed?
    }
  }

  datatype Strategy = Sequential | Canary | RollingBatch | Parallel

  datatype FailurePolicy = Stop | PauseForReview | Continue | Rollback

  datatype RecoveryState = Live | MetadataOnly

  datatype Target = Target(profileId: Id, sessionId: Id, role: Option<string>, ordinal: nat)

  datatype StageDraft = StageDraft(
    id: Id, summary: string, targetIds: seq<Id>, dependsOn: seq<Id>,
    strategy: Strategy, concurrencyLimit: nat)

  datatype Stage = Stage(
    id: Id, summary: string, targetIds: seq<Id>, dependsOn: seq<Id>,
    strategy: Strategy, concurrencyLimit: nat, state: StageState)

  datatype Child = Child(
    stageId: Id, targetId: Id, agentRunId: Option<Id>, attempt: nat,
    state: StageState, errorCode: Option<string>)

  /** The SHA-256 of a graph, taken as an injective function of what is hashed. */
  datatype Digest = Digest(
    production: bool, failurePolicy: FailurePolicy, targets: seq<Target>, stages: seq<Stage>)

  /** The value of a Fleet run at one moment. */
  datatype Fleet = Fleet(
    id: Id, version: nat, state: RunState, production: bool, failurePolicy: FailurePolicy,
    targets: seq<Target>, stages: seq<Stage>, children: seq<Child>, graphDigest: Digest,
    recovery: RecoveryState, updatedAt: nat)

  datatype PlanError =
    | InvalidTargets | InvalidStages | UnknownTarget | InvalidDependency | DependencyCycle
    | ProductionParallel | InvalidTransition

  /** Error codes are 1 to 96 upper-case letters or underscores. */
  predicate ValidCode(code: string) {
    && 0 < |code| <= 96
    && forall i :: 0 <= i < |code| ==> 'A' <= code[i] <= 'Z' || code[i] == '_'
  }

  // ---- The graph -------------------------------------------------------------------------

  predicate TargetsValid(targets: seq<Target>) {
    && MIN_FLEET_TARGETS <= |targets| <= MAX_FLEET_TARGETS
    && (forall i :: 0 <= i < |targets| ==> targets[i].ordinal == i)
    && (forall i, j :: 0 <= i < j < |targets| ==> targets[i].profileId != targets[j].profileId)
    && (forall i, j :: 0 <= i < j < |targets| ==> targets[i].sessionId != targets[j].sessionId)
  }

  predicate HasTarget(targets: seq<Target>, id: Id) {
    exists i :: 0 <= i < |targets| && targets[i].profileId == id
  }

  predicate HasStage(stages: seq<Stage>, id: Id) {
    exists k :: 0 <= k < |stages| && stages[k].id == id
  }

  ghost predicate DistinctStages(stages: seq<Stage>) {
    forall i, j :: 0 <= i < j < |stages| ==> stages[i].id != stages[j].id
  }

  /** What every stage of a plan must satisfy on its own, given the ids known to the plan. */
  ghost predicate StageValid(targets: seq<Target>, stages: seq<Stage>, st: Stage) {
    && st.targetIds != []
    && Distinct(st.targetIds)
    && (forall t :: t in st.targetIds ==> HasTarget(targets, t))
    && Distinct(st.dependsOn)
    && st.id !in st.dependsOn
    && (forall d :: d in st.dependsOn ==> HasStage(stages, d))
    && 0 < st.concurrencyLimit <= |st.targetIds|
    && (st.strategy == Sequential ==> st.concurrencyLimit == 1)
  }

  /** A rank strictly decreasing along every dependency. */
  ghost predicate Ranked(stages: seq<Stage>, rank: map<Id, nat>) {
    forall k, d :: 0 <= k < |stages| && d in stages[k].dependsOn ==>
      d in rank && stages[k].id in rank && rank[d] < rank[stages[k].id]
  }

  ghost predicate Acyclic(stages: seq<Stage>) {
    exists rank :: Ranked(stages, rank)
  }

  ghost predicate GraphValid(production: bool, targets: seq<Target>, stages: seq<Stage>) {
    && TargetsValid(targets)
    && 0 < |stages| <= MAX_FLEET_STAGES
    && DistinctStages(stages)
    && (forall k :: 0 <= k < |stages| ==> StageValid(targets, stages, stages[k]))
    && (production ==> forall k :: 0 <= k < |stages| ==> stages[k].strategy != Parallel)
    && Acyclic(stages)
  }

  /** What durable metadata demands of one child row. */
  ghost predicate ChildValid(targets: seq<Target>, stages: seq<Stage>, c: Child) {
    && HasStage(stages, c.stageId)
    && HasTarget(targets, c.targetId)
    && c.attempt != 0
    && (c.errorCode.Some? ==> ValidCode(c.errorCode.value))
  }

  ghost predicate DistinctChildKeys(children: seq<Child>) {
    forall i, j :: 0 <= i < j < |children| ==>
      !(SamePair(children[i], children[j]) && children[i].attempt == children[j].attempt)
  }

  ghost predicate MetadataValid(s: Fleet) {
    && GraphValid(s.production, s.targets, s.stages)
    && (forall i :: 0 <= i < |s.children| ==> ChildValid(s.targets, s.stages, s.children[i]))
    && DistinctChildKeys(s.children)
  }

  /** Same stages up to their states. */
  ghost predicate SameGraph(a: seq<Stage>, b: seq<Stage>) {
    && |a| == |b|
    && forall k :: 0 <= k < |a| ==> a[k].(state := b[k].state) == b[k]
  }

  predicate SamePair(a: Child, b: Child) {
    a.stageId == b.stageId && a.targetId == b.targetId
  }

  // ---- Readings of the children ----------------------------------------------------------

  predicate Of(c: Child, stageId: Id, targetId: Id) {
    c.stageId == stageId && c.targetId == targetId
  }

  /** No child of the pair is active or settled. */
  predicate Open(children: seq<Child>, stageId: Id, targetId: Id) {
    forall i :: 0 <= i < |children| && Of(children[i], stageId, targetId) ==>
      !children[i].state.IsActive() && !children[i].state.IsSettled()
  }

  predicate HasSucceeded(children: seq<Child>, stageId: Id, targetId: Id) {
    exists i :: 0 <= i < |children| && Of(children[i], stageId, targetId) && children[i].state == StageState.Succeeded
  }

  predicate HasFailed(children: seq<Child>, stageId: Id) {
    exists i :: 0 <= i < |children| && children[i].stageId == stageId && children[i].state == StageState.Failed
  }

  predicate HasChild(children: seq<Child>, stageId: Id) {
    exists i :: 0 <= i < |children| && children[i].stageId == stageId
  }

  predicate HasActiveIn(children: seq<Child>, stageId: Id) {
    exists i :: 0 <= i < |children| && children[i].stageId == stageId && children[i].state.IsActive()
  }

  function ActiveCount(children: seq<Child>): (n: nat) {
    if children == [] then 0
    else
      var last := |children| - 1;
      ActiveCount(children[..last]) + if children[last].state.IsActive() then 1 else 0
  }

  function ActiveIn(children: seq<Child>, stageId: Id): (n: nat) {
    if children == [] then 0
    else
      var last := |children| - 1;
      ActiveIn(children[..last], stageId)
      + if children[last].stageId == stageId && children[last].state.IsActive() then 1 else 0
  }

  /** How many children the pair has had. */
  function PairCount(children: seq<Child>, stageId: Id, targetId: Id): (n: nat) {
    if children == [] then 0
    else
      var last := |children| - 1;
      PairCount(children[..last], stageId, targetId) + if Of(children[last], stageId, targetId) then 1 else 0
  }

  /** The largest attempt of the pair so far, 0 when there is none. */
  function LastAttempt(children: seq<Child>, stageId: Id, targetId: Id): (n: nat) {
    if children == [] then 0
    else
      var last := |children| - 1;
      var before := LastAttempt(children[..last], stageId, targetId);
      if Of(children[last], stageId, targetId) && before < children[last].attempt then children[last].attempt
      else before
  }

  function NextAttempt(children: seq<Child>, stageId: Id, targetId: Id): (n: nat) {
    var last := LastAttempt(children, stageId, targetId);
    if last < MAX_ATTEMPT then last + 1 else MAX_ATTEMPT
  }

  /** The agent runs that own an active child, in order. */
  function ActiveAgents(children: seq<Child>): (ids: seq<Id>) {
    if children == [] then []
    else
      var last := |children| - 1;
      ActiveAgents(children[..last])
      + if children[last].state.IsActive() && children[last].agentRunId.Some?
        then [children[last].agentRunId.value] else []
  }

  predicate StageSucceeded(stages: seq<Stage>, id: Id) {
    exists k :: 0 <= k < |stages| && stages[k].id == id && stages[k].state == StageState.Succeeded
  }

  predicate StageStuck(stages: seq<Stage>, id: Id) {
    exists k :: 0 <= k < |stages| && stages[k].id == id && stages[k].state in {StageState.Failed, StageState.Blocked}
  }

  predicate AllStagesSucceeded(stages: seq<Stage>) {
    forall k :: 0 <= k < |stages| ==> stages[k].state == StageState.Succeeded
  }
}
