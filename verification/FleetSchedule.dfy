/**
 What each coordinator operation makes of a Fleet value. The methods of `FleetCoordinator` are
 proved to compute these functions; the scheduling theorems are about them.
 */
module FleetSchedule {
  import opened Basics
  import opened FleetModel

  datatype ApprovalState = Pending | Granted | Rejected | Invalidated

  datatype Approval = Approval(
    id: Id, fleetRunId: Id, fleetVersion: nat, graphDigest: Digest, targets: seq<Target>,
    policyVersion: nat, policyHash: string, state: ApprovalState,
    invalidationCode: Option<string>, createdAt: nat, decidedAt: Option<nat>)

  datatype Lease = Lease(
    fleetRunId: Id, fleetVersion: nat, graphDigest: Digest, approvalId: Id, stageId: Id,
    agentRunId: Id, target: Target, attempt: nat, policyVersion: nat, policyHash: string)

  datatype ChildOutcome = Success | Failure | Cancellation

  datatype CoordinatorError = InvalidAuthority | InvalidState | InvalidChild

  /** One scheduling decision: which stage (by position) takes which target. */
  datatype Pick = Pick(stage: nat, targetId: Id)

  predicate Authorized(s: Fleet, a: Approval, policyVersion: nat, policyHash: string, allowed: set<RunState>) {
    && s.recovery == Live
    && s.state in allowed
    && a.state == Granted
    && a.fleetRunId == s.id
    && a.fleetVersion == s.version
    && a.graphDigest == s.graphDigest
    && a.targets == s.targets
    && a.policyVersion == policyVersion
    && a.policyHash == policyHash
  }

  function Min(a: nat, b: nat): nat {
    if a <= b then a else b
  }

  function Minus(a: nat, b: nat): nat {
    if a <= b then 0 else a - b
  }

  // ---- claim_ready -----------------------------------------------------------------------

  function BlockedStages(stages: seq<Stage>): (r: seq<Stage>)
    ensures |r| == |stages|
  {
    seq(|stages|, k requires 0 <= k < |stages| =>
      if stages[k].state == StageState.Pending && exists d :: d in stages[k].dependsOn && StageStuck(stages, d)
      then stages[k].(state := StageState.Blocked)
      else stages[k])
  }

  predicate CanStart(stages: seq<Stage>, st: Stage) {
    && (st.state == StageState.Pending || st.state == StageState.Running)
    && forall d :: d in st.dependsOn ==> StageSucceeded(stages, d)
  }

  function StageRoom(children: seq<Child>, st: Stage, capacity: nat): (room: nat)
    ensures room <= capacity
  {
    var active := ActiveIn(children, st.id);
    if st.strategy == Sequential && active > 0 then 0
    else Min(capacity, Minus(st.concurrencyLimit, active))
  }

  /** The first target of a canary stage has gone through. */
  predicate CanaryPassed(children: seq<Child>, st: Stage)
    requires st.targetIds != []
  {
    HasSucceeded(children, st.id, st.targetIds[0])
  }

  predicate CanaryReady(children: seq<Child>, st: Stage)
    requires st.targetIds != []
  {
    st.strategy != Canary || CanaryPassed(children, st) || !HasChild(children, st.id)
  }

  /** The targets a stage takes from position `j` on with `available` slots. */
  function PickTargets(children: seq<Child>, st: Stage, j: nat, available: nat): (picks: seq<Id>)
    requires st.targetIds != []
    requires j <= |st.targetIds|
    ensures |picks| <= available
    decreases |st.targetIds| - j
  {
    if available == 0 || j == |st.targetIds| then []
    else
      var t := st.targetIds[j];
      if !Open(children, st.id, t) then PickTargets(children, st, j + 1, available)
      else if st.strategy == Canary && t != st.targetIds[0] && !CanaryReady(children, st) then
        PickTargets(children, st, j + 1, available)
      else if st.strategy == Canary && !CanaryPassed(children, st) then [t]
      else [t] + PickTargets(children, st, j + 1, available - 1)
  }

  function Tagged(k: nat, targets: seq<Id>): (picks: seq<Pick>)
    ensures |picks| == |targets|
  {
    seq(|targets|, n requires 0 <= n < |targets| => Pick(k, targets[n]))
  }

  /** What stage `k` takes when `capacity` slots are left for the whole Fleet. */
  function StagePicks(stages: seq<Stage>, children: seq<Child>, k: nat, capacity: nat): (picks: seq<Id>)
    requires k < |stages| && stages[k].targetIds != []
    ensures |picks| <= capacity
  {
    if capacity == 0 || !CanStart(stages, stages[k]) then []
    else PickTargets(children, stages[k], 0, StageRoom(children, stages[k], capacity))
  }

  predicate Targeted(stages: seq<Stage>) {
    forall k :: 0 <= k < |stages| ==> stages[k].targetIds != []
  }

  predicate StagesWithin(plan: seq<Pick>, low: nat, high: nat) {
    forall n :: 0 <= n < |plan| ==> low <= plan[n].stage < high
  }

  /** All picks from stage `k` on, in the order they are leased. */
  function Plan(stages: seq<Stage>, children: seq<Child>, k: nat, capacity: nat): (plan: seq<Pick>)
    requires k <= |stages| && Targeted(stages)
    ensures |plan| <= capacity
    ensures StagesWithin(plan, k, |stages|)
    decreases |stages| - k
  {
    if k == |stages| then []
    else
      var here := StagePicks(stages, children, k, capacity);
      Tagged(k, here) + Plan(stages, children, k + 1, capacity - |here|)
  }

  function ChildOf(stages: seq<Stage>, children: seq<Child>, pick: Pick, agent: Id): Child
    requires pick.stage < |stages|
  {
    var sid := stages[pick.stage].id;
    Child(sid, pick.targetId, Some(agent), NextAttempt(children, sid, pick.targetId), StageState.Running, None)
  }

  function ChildrenOf(stages: seq<Stage>, children: seq<Child>, plan: seq<Pick>, firstId: Id): (r: seq<Child>)
    requires StagesWithin(plan, 0, |stages|)
    ensures |r| == |plan|
  {
    seq(|plan|, n requires 0 <= n < |plan| => ChildOf(stages, children, plan[n], firstId + n))
  }

  predicate Picked(plan: seq<Pick>, k: nat) {
    exists n :: 0 <= n < |plan| && plan[n].stage == k
  }

  function MarkRunning(stages: seq<Stage>, plan: seq<Pick>): (r: seq<Stage>)
    ensures |r| == |stages|
  {
    seq(|stages|, k requires 0 <= k < |stages| =>
      if Picked(plan, k) then stages[k].(state := StageState.Running) else stages[k])
  }

  function TargetOf(targets: seq<Target>, id: Id): (t: Target)
    requires HasTarget(targets, id)
    ensures t in targets && t.profileId == id
  {
    if targets[0].profileId == id then targets[0] else TargetOf(targets[1..], id)
  }

  function LeaseOf(s: Fleet, a: Approval, policyVersion: nat, policyHash: string, c: Child): Lease
    requires c.agentRunId.Some?
    requires HasTarget(s.targets, c.targetId)
  {
    Lease(s.id, s.version, s.graphDigest, a.id, c.stageId, c.agentRunId.value,
      TargetOf(s.targets, c.targetId), c.attempt, policyVersion, policyHash)
  }

  ghost predicate GraphOk(s: Fleet) {
    GraphValid(s.production, s.targets, s.stages)
  }

  /** The slots left: at most ten children run at once over all stages. */
  function FreeSlots(s: Fleet, requested: nat): nat {
    Minus(Min(requested, MAX_FLEET_ACTIVE_CHILDREN), ActiveCount(s.children))
  }

  ghost function ClaimPlan(s: Fleet, requested: nat): (plan: seq<Pick>)
    requires GraphOk(s)
    ensures |plan| <= FreeSlots(s, requested)
    ensures StagesWithin(plan, 0, |s.stages|)
  {
    assert Targeted(BlockedStages(s.stages)) by {
      forall k | 0 <= k < |s.stages| ensures s.stages[k].targetIds != [] {
        assert StageValid(s.targets, s.stages, s.stages[k]);
      }
    }
    Plan(BlockedStages(s.stages), s.children, 0, FreeSlots(s, requested))
  }

  ghost function Claimed(s: Fleet, requested: nat, now: nat, firstId: Id): Fleet
    requires GraphOk(s)
  {
    var stages := BlockedStages(s.stages);
    var plan := ClaimPlan(s, requested);
    s.(state := RunState.Executing,
       stages := MarkRunning(stages, plan),
       children := s.children + ChildrenOf(stages, s.children, plan, firstId),
       updatedAt := now)
  }

  // ---- record_outcome --------------------------------------------------------------------

  function OutcomeState(outcome: ChildOutcome): StageState {
    match outcome
    case Success => StageState.Succeeded
    case Failure => StageState.Failed
    case Cancellation => StageState.Cancelled
  }

  predicate OutcomeCodeOk(outcome: ChildOutcome, code: Option<string>) {
    (code.Some? ==> ValidCode(code.value)) && !(outcome == Success && code.Some?)
  }

  predicate Runs(c: Child, agent: Id) {
    c.agentRunId == Some(agent) && c.state.IsActive()
  }

  /** Position of the first active child the agent run owns, or the length when there is none. */
  function FindRunning(children: seq<Child>, agent: Id): (i: nat)
    ensures i <= |children|
    ensures i < |children| ==> Runs(children[i], agent)
    ensures forall j :: 0 <= j < i ==> !Runs(children[j], agent)
  {
    if children == [] || Runs(children[0], agent) then 0
    else 1 + FindRunning(children[1..], agent)
  }

  predicate AllTargetsSucceeded(children: seq<Child>, st: Stage) {
    forall t :: t in st.targetIds ==> HasSucceeded(children, st.id, t)
  }

  function RefreshedState(st: Stage, children: seq<Child>): StageState {
    if HasFailed(children, st.id) then StageState.Failed
    else if AllTargetsSucceeded(children, st) then StageState.Succeeded
    else if HasActiveIn(children, st.id) then StageState.Running
    else st.state
  }

  function RefreshedStages(stages: seq<Stage>, children: seq<Child>, id: Id): (r: seq<Stage>)
    ensures |r| == |stages|
  {
    seq(|stages|, k requires 0 <= k < |stages| =>
      if stages[k].id == id then stages[k].(state := RefreshedState(stages[k], children)) else stages[k])
  }

  predicate AnyStageFailed(stages: seq<Stage>) {
    exists k :: 0 <= k < |stages| && stages[k].state == StageState.Failed
  }

  function PolicyState(policy: FailurePolicy, stages: seq<Stage>): RunState {
    if !AnyStageFailed(stages) then RunState.Executing
    else match policy
      case Stop => RunState.Failed
      case PauseForReview => RunState.PausedForReview
      case Rollback => RunState.RollingBack
      case Continue => RunState.Executing
  }

  /** Every active child moved to `to`. */
  function SettleActive(children: seq<Child>, to: StageState): (r: seq<Child>)
    ensures |r| == |children|
  {
    seq(|children|, i requires 0 <= i < |children| =>
      if children[i].state.IsActive() then children[i].(state := to) else children[i])
  }

  function Recorded(s: Fleet, i: nat, outcome: ChildOutcome, code: Option<string>, now: nat): Fleet
    requires i < |s.children|
  {
    var c := s.children[i].(state := OutcomeState(outcome), errorCode := code);
    var children := s.children[i := c];
    var stages := RefreshedStages(s.stages, children, c.stageId);
    var state := PolicyState(s.failurePolicy, stages);
    s.(children := if state == RunState.PausedForReview then SettleActive(children, StageState.Blocked) else children,
       stages := stages,
       state := if state == RunState.Executing && AllStagesSucceeded(stages) then RunState.Verifying else state,
       updatedAt := now)
  }

  // ---- pause, continue_after_review, cancel ----------------------------------------------

  function Paused(s: Fleet, now: nat): Fleet {
    s.(state := RunState.PausedForReview, children := SettleActive(s.children, StageState.Blocked), updatedAt := now)
  }

  predicate Settled(children: seq<Child>, stageId: Id, targetId: Id) {
    exists i :: 0 <= i < |children| && Of(children[i], stageId, targetId) && children[i].state.IsSettled()
  }

  predicate HasUnsettledTarget(children: seq<Child>, st: Stage) {
    exists t :: t in st.targetIds && !Settled(children, st.id, t)
  }

  function ReopenedStages(stages: seq<Stage>, children: seq<Child>): (r: seq<Stage>)
    ensures |r| == |stages|
  {
    seq(|stages|, k requires 0 <= k < |stages| =>
      if stages[k].state in {StageState.Failed, StageState.Blocked} && HasUnsettledTarget(children, stages[k])
      then stages[k].(state := StageState.Running)
      else stages[k])
  }

  function BlockedAgents(children: seq<Child>): (ids: seq<Id>) {
    if children == [] then []
    else
      var last := |children| - 1;
      BlockedAgents(children[..last])
      + if children[last].state == StageState.Blocked && children[last].agentRunId.Some?
        then [children[last].agentRunId.value] else []
  }

  function Continued(s: Fleet, now: nat): Fleet {
    s.(state := RunState.Executing, stages := ReopenedStages(s.stages, s.children), updatedAt := now)
  }

  function CancelledFleet(s: Fleet, now: nat): Fleet {
    s.(state := RunState.Cancelled, children := SettleActive(s.children, StageState.Cancelled), updatedAt := now)
  }

  // ---- The operations --------------------------------------------------------------------

  ghost function ClaimReady(
    s: Fleet, a: Approval, policyVersion: nat, policyHash: string, requested: nat, now: nat, firstId: Id)
    : Result<Fleet, CoordinatorError>
    requires GraphOk(s)
  {
    if !Authorized(s, a, policyVersion, policyHash, {RunState.Approved, RunState.Executing}) then Err(InvalidAuthority)
    else if requested == 0 then Ok(s)
    else Ok(Claimed(s, requested, now, firstId))
  }

  function RecordOutcome(s: Fleet, agent: Id, outcome: ChildOutcome, code: Option<string>, now: nat)
    : Result<Fleet, CoordinatorError>
  {
    if s.recovery != Live || s.state != RunState.Executing then Err(InvalidState)
    else if !OutcomeCodeOk(outcome, code) then Err(InvalidChild)
    else
      var i := FindRunning(s.children, agent);
      if i == |s.children| then Err(InvalidChild) else Ok(Recorded(s, i, outcome, code, now))
  }

  function Pause(s: Fleet, now: nat): Result<Fleet, CoordinatorError> {
    if s.recovery != Live || s.state != RunState.Executing then Err(InvalidState) else Ok(Paused(s, now))
  }

  function ContinueAfterReview(s: Fleet, a: Approval, policyVersion: nat, policyHash: string, now: nat)
    : Result<Fleet, CoordinatorError>
  {
    if !Authorized(s, a, policyVersion, policyHash, {RunState.PausedForReview}) then Err(InvalidAuthority)
    else Ok(Continued(s, now))
  }

  function Cancel(s: Fleet, now: nat): Result<Fleet, CoordinatorError> {
    if s.recovery != Live || s.state.IsTerminal() then Err(InvalidState) else Ok(CancelledFleet(s, now))
  }
}
