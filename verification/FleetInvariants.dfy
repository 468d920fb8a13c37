/**
 The inductive invariant of a Fleet run and what its parts survive: exclusive ownership of targets,
 dependency order, concurrency bounds, canary order, and the tie between a stage's state and the
 outcomes of its children.
 */
module FleetInvariants {
  import opened Basics
  import opened FleetModel
  import opened FleetSchedule

  // ---- The invariant ---------------------------------------------------------------------

  ghost predicate ChildrenPlaced(stages: seq<Stage>, children: seq<Child>) {
    && (forall i :: 0 <= i < |children| ==> HasStage(stages, children[i].stageId))
    && (forall i, k :: 0 <= i < |children| && 0 <= k < |stages| && stages[k].id == children[i].stageId ==>
         children[i].targetId in stages[k].targetIds)
  }

  /** A stage has a child only if every stage it depends on has succeeded. */
  ghost predicate DependenciesDone(stages: seq<Stage>, children: seq<Child>) {
    forall i, k, d |
      0 <= i < |children| && 0 <= k < |stages| && stages[k].id == children[i].stageId
      && d in stages[k].dependsOn ::
      StageSucceeded(stages, d)
  }

  ghost predicate ChildStatesOk(children: seq<Child>) {
    forall i :: 0 <= i < |children| ==>
      && children[i].state in
           {StageState.Running, StageState.Succeeded, StageState.Failed, StageState.Cancelled, StageState.Blocked}
      && (children[i].errorCode.Some? ==> ValidCode(children[i].errorCode.value))
  }

  /** Only the newest child of a (stage, target) pair may be active or settled. */
  ghost predicate Owned(children: seq<Child>) {
    forall i, j :: 0 <= i < j < |children| && SamePair(children[i], children[j]) ==>
      children[i].state == StageState.Blocked
  }

  /** Attempts count the children of a pair from 1 and saturate. */
  ghost predicate AttemptsOk(children: seq<Child>) {
    forall i :: 0 <= i < |children| ==>
      children[i].attempt ==
      Min(PairCount(children[..i], children[i].stageId, children[i].targetId) + 1, MAX_ATTEMPT)
  }

  ghost predicate AgentsDistinct(children: seq<Child>) {
    && (forall i :: 0 <= i < |children| ==> children[i].agentRunId.Some?)
    && (forall i, j :: 0 <= i < j < |children| ==> children[i].agentRunId != children[j].agentRunId)
  }

  predicate AnyFailed(children: seq<Child>) {
    exists i :: 0 <= i < |children| && children[i].state == StageState.Failed
  }

  ghost predicate StageOk(children: seq<Child>, st: Stage) {
    && st.state in
         {StageState.Pending, StageState.Running, StageState.Succeeded, StageState.Failed, StageState.Blocked}
    && (st.state == StageState.Succeeded <==> AllTargetsSucceeded(children, st))
    && (st.state == StageState.Failed ==> HasFailed(children, st.id))
    && (st.state in {StageState.Pending, StageState.Blocked} ==> !HasChild(children, st.id))
    && (st.state == StageState.Blocked ==> AnyFailed(children))
  }

  ghost predicate StagesOk(stages: seq<Stage>, children: seq<Child>) {
    forall k :: 0 <= k < |stages| ==> StageOk(children, stages[k])
  }

  ghost predicate Bounded(stages: seq<Stage>, children: seq<Child>) {
    && ActiveCount(children) <= MAX_FLEET_ACTIVE_CHILDREN
    && forall k :: 0 <= k < |stages| ==> ActiveIn(children, stages[k].id) <= stages[k].concurrencyLimit
  }

  /** In a canary stage nobody but the first target runs before the first target has succeeded. */
  ghost predicate CanaryFirst(stages: seq<Stage>, children: seq<Child>) {
    forall i, k |
      0 <= i < |children| && 0 <= k < |stages| && stages[k].id == children[i].stageId
      && stages[k].strategy == Canary && stages[k].targetIds != []
      && children[i].targetId != stages[k].targetIds[0] ::
      HasSucceeded(children, stages[k].id, stages[k].targetIds[0])
  }

  predicate NoneActive(children: seq<Child>) {
    forall i :: 0 <= i < |children| ==> !children[i].state.IsActive()
  }

  predicate BeforeExecution(state: RunState) {
    state in {RunState.Draft, RunState.ValidatingTargets, RunState.Investigating, RunState.Planning,
              RunState.AwaitingApproval, RunState.Approved}
  }

  ghost predicate RunStateOk(state: RunState, stages: seq<Stage>, children: seq<Child>) {
    && (BeforeExecution(state) ==>
         children == [] && forall k :: 0 <= k < |stages| ==> stages[k].state == StageState.Pending)
    && (state in {RunState.Executing, RunState.PausedForReview} ==> !AllStagesSucceeded(stages))
    && (state == RunState.Verifying ==> AllStagesSucceeded(stages))
    && (state in {RunState.PausedForReview, RunState.Verifying, RunState.Cancelled} ==> NoneActive(children))
  }

  ghost predicate Inv(s: Fleet) {
    && GraphOk(s)
    && ChildrenPlaced(s.stages, s.children)
    && DependenciesDone(s.stages, s.children)
    && ChildStatesOk(s.children)
    && Owned(s.children)
    && AttemptsOk(s.children)
    && AgentsDistinct(s.children)
    && StagesOk(s.stages, s.children)
    && Bounded(s.stages, s.children)
    && CanaryFirst(s.stages, s.children)
    && RunStateOk(s.state, s.stages, s.children)
  }

  /** No agent run of the Fleet has an id the supply could still hand out. */
  ghost predicate IdsBelow(children: seq<Child>, firstId: Id) {
    forall i :: 0 <= i < |children| && children[i].agentRunId.Some? ==> children[i].agentRunId.value < firstId
  }

  // ---- Stage graphs under state changes --------------------------------------------------

  lemma SameGraphKeepsIds(a: seq<Stage>, b: seq<Stage>, id: Id)
    requires SameGraph(a, b)
    ensures HasStage(a, id) <==> HasStage(b, id)
  {
  }

  lemma SameGraphValid(production: bool, targets: seq<Target>, a: seq<Stage>, b: seq<Stage>)
    requires SameGraph(a, b)
    requires GraphValid(production, targets, a)
    ensures GraphValid(production, targets, b)
  {
    forall k | 0 <= k < |a|
      ensures b[k] == a[k].(state := b[k].state)
      ensures StageValid(targets, b, b[k])
    {
      assert StageValid(targets, a, a[k]);
      forall d | d in b[k].dependsOn ensures HasStage(b, d) {
        SameGraphKeepsIds(a, b, d);
      }
    }
    var rank :| Ranked(a, rank);
    assert Ranked(b, rank);
  }

  lemma GraphIsDistinct(s: Fleet)
    requires GraphOk(s)
    ensures DistinctStages(s.stages)
  {
  }

  // ---- Counting children -----------------------------------------------------------------

  /** Equal up to state and error code. */
  ghost predicate SameKeys(a: seq<Child>, b: seq<Child>) {
    && |a| == |b|
    && forall i :: 0 <= i < |a| ==>
         && a[i].stageId == b[i].stageId && a[i].targetId == b[i].targetId
         && a[i].agentRunId == b[i].agentRunId && a[i].attempt == b[i].attempt
  }

  lemma {:induction false} PairCountSameKeys(a: seq<Child>, b: seq<Child>, sid: Id, tid: Id)
    requires SameKeys(a, b)
    ensures PairCount(a, sid, tid) == PairCount(b, sid, tid)
  {
    if a != [] {
      PairCountSameKeys(a[..|a| - 1], b[..|b| - 1], sid, tid);
    }
  }

  lemma AttemptsSameKeys(a: seq<Child>, b: seq<Child>)
    requires AttemptsOk(a) && SameKeys(a, b)
    ensures AttemptsOk(b)
  {
    forall i | 0 <= i < |b|
      ensures b[i].attempt == Min(PairCount(b[..i], b[i].stageId, b[i].targetId) + 1, MAX_ATTEMPT)
    {
      PairCountSameKeys(a[..i], b[..i], b[i].stageId, b[i].targetId);
    }
  }

  lemma {:induction false} PairCountAppend(a: seq<Child>, b: seq<Child>, sid: Id, tid: Id)
    requires forall i :: 0 <= i < |b| ==> !Of(b[i], sid, tid)
    ensures PairCount(a + b, sid, tid) == PairCount(a, sid, tid)
  {
    if b == [] {
      assert a + b == a;
    } else {
      var front := b[..|b| - 1];
      assert (a + b)[..|a + b| - 1] == a + front;
      PairCountAppend(a, front, sid, tid);
    }
  }

  lemma {:induction false} LastAttemptCounts(children: seq<Child>, sid: Id, tid: Id)
    requires forall i :: 0 <= i < |children| ==>
      children[i].attempt ==
      Min(PairCount(children[..i], children[i].stageId, children[i].targetId) + 1, MAX_ATTEMPT)
    ensures LastAttempt(children, sid, tid) == Min(PairCount(children, sid, tid), MAX_ATTEMPT)
  {
    if children != [] {
      var n := |children| - 1;
      var front := children[..n];
      forall i | 0 <= i < n ensures children[..i] == front[..i] {}
      LastAttemptCounts(front, sid, tid);
    }
  }

  lemma {:induction false} ActiveCountAppend(a: seq<Child>, b: seq<Child>)
    requires forall i :: 0 <= i < |b| ==> b[i].state == StageState.Running
    ensures ActiveCount(a + b) == ActiveCount(a) + |b|
  {
    if b == [] {
      assert a + b == a;
    } else {
      assert (a + b)[..|a + b| - 1] == a + b[..|b| - 1];
      ActiveCountAppend(a, b[..|b| - 1]);
    }
  }

  function StageCount(children: seq<Child>, sid: Id): (n: nat) {
    if children == [] then 0
    else
      var last := |children| - 1;
      StageCount(children[..last], sid) + if children[last].stageId == sid then 1 else 0
  }

  lemma {:induction false} ActiveInAppend(a: seq<Child>, b: seq<Child>, sid: Id)
    requires forall i :: 0 <= i < |b| ==> b[i].state == StageState.Running
    ensures ActiveIn(a + b, sid) == ActiveIn(a, sid) + StageCount(b, sid)
  {
    if b == [] {
      assert a + b == a;
    } else {
      assert (a + b)[..|a + b| - 1] == a + b[..|b| - 1];
      ActiveInAppend(a, b[..|b| - 1], sid);
    }
  }

  /** Counts never grow when children only leave the active states. */
  lemma {:induction false} ActiveShrinks(a: seq<Child>, b: seq<Child>, sid: Id)
    requires SameKeys(a, b)
    requires forall i :: 0 <= i < |a| && b[i].state.IsActive() ==> a[i].state.IsActive()
    ensures ActiveCount(b) <= ActiveCount(a)
    ensures ActiveIn(b, sid) <= ActiveIn(a, sid)
  {
    if a != [] {
      ActiveShrinks(a[..|a| - 1], b[..|b| - 1], sid);
    }
  }

  lemma {:induction false} ActiveCountZero(children: seq<Child>)
    ensures ActiveCount(children) == 0 <==> NoneActive(children)
  {
    if children != [] {
      var n := |children| - 1;
      ActiveCountZero(children[..n]);
      if NoneActive(children) {
        forall i | 0 <= i < n ensures !children[..n][i].state.IsActive() {
          assert children[..n][i] == children[i];
        }
      } else if NoneActive(children[..n]) {
        forall i | 0 <= i < n ensures !children[i].state.IsActive() {
          assert children[..n][i] == children[i];
        }
      }
    }
  }

  lemma {:induction false} ActiveInZero(children: seq<Child>, sid: Id)
    requires !HasActiveIn(children, sid)
    ensures ActiveIn(children, sid) == 0
  {
    if children != [] {
      var n := |children| - 1;
      forall i | 0 <= i < n ensures children[..n][i] == children[i] {}
      assert !HasActiveIn(children[..n], sid);
      ActiveInZero(children[..n], sid);
      assert children[n] == children[n];
    }
  }
}
