/** Recording an outcome, pausing, continuing and cancelling keep the Fleet invariant. */
module FleetOutcomes {
  import opened Basics
  import opened FleetModel
  import opened FleetSchedule
  import opened FleetInvariants

  // ---- What ownership says about verdicts ------------------------------------------------

  /** A pair whose child is not blocked has that child's verdict and no other. */
  lemma OneVerdict(children: seq<Child>, i: nat, j: nat)
    requires Owned(children) && i < |children| && j < |children| && SamePair(children[i], children[j])
    requires children[i].state != StageState.Blocked && children[j].state != StageState.Blocked
    ensures i == j
  {
  }

  /** A stage with a child that neither succeeded nor was blocked is not complete. */
  lemma StageWithOpenVerdict(stages: seq<Stage>, children: seq<Child>, i: nat, k: nat)
    requires Owned(children) && ChildrenPlaced(stages, children)
    requires i < |children| && k < |stages| && stages[k].id == children[i].stageId
    requires children[i].state != StageState.Blocked && children[i].state != StageState.Succeeded
    ensures !AllTargetsSucceeded(children, stages[k])
  {
  }

  // ---- Children that change state but not identity ----------------------------------------

  /** Identities stay, blocked children stay blocked, and new codes are valid. */
  ghost predicate StateChange(a: seq<Child>, b: seq<Child>) {
    && SameKeys(a, b)
    && (forall i :: 0 <= i < |a| && !a[i].state.IsActive() ==> b[i] == a[i])
  }

  lemma StateChangeKeepsIdentity(stages: seq<Stage>, a: seq<Child>, b: seq<Child>)
    requires StateChange(a, b)
    requires ChildrenPlaced(stages, a) && DependenciesDone(stages, a) && Owned(a) && AttemptsOk(a) && AgentsDistinct(a)
    ensures ChildrenPlaced(stages, b) && DependenciesDone(stages, b) && Owned(b) && AttemptsOk(b) && AgentsDistinct(b)
  {
    AttemptsSameKeys(a, b);
  }

  lemma StateChangeKeepsBounds(stages: seq<Stage>, a: seq<Child>, b: seq<Child>)
    requires StateChange(a, b) && Bounded(stages, a)
    ensures Bounded(stages, b)
  {
    ActiveShrinks(a, b, 0);
    forall k | 0 <= k < |stages| ensures ActiveIn(b, stages[k].id) <= stages[k].concurrencyLimit {
      ActiveShrinks(a, b, stages[k].id);
    }
  }

  lemma StateChangeKeepsVerdicts(a: seq<Child>, b: seq<Child>)
    requires StateChange(a, b)
    ensures forall sid, tid :: HasSucceeded(a, sid, tid) ==> HasSucceeded(b, sid, tid)
    ensures forall sid :: HasFailed(a, sid) ==> HasFailed(b, sid)
    ensures forall sid :: HasChild(a, sid) <==> HasChild(b, sid)
    ensures AnyFailed(a) ==> AnyFailed(b)
  {
  }

  lemma StateChangeKeepsCanary(stages: seq<Stage>, a: seq<Child>, b: seq<Child>)
    requires StateChange(a, b) && CanaryFirst(stages, a)
    ensures CanaryFirst(stages, b)
  {
  }

  // ---- Settling all active children --------------------------------------------------------

  /** Blocking or cancelling the active children decides nothing else. */
  lemma SettleKeepsVerdicts(children: seq<Child>, to: StageState)
    requires to in {StageState.Blocked, StageState.Cancelled}
    ensures var b := SettleActive(children, to);
      && StateChange(children, b)
      && NoneActive(b)
      && forall sid, tid :: HasSucceeded(b, sid, tid) <==> HasSucceeded(children, sid, tid)
  {
  }

  lemma SettleKeepsStages(stages: seq<Stage>, children: seq<Child>, to: StageState)
    requires to in {StageState.Blocked, StageState.Cancelled}
    requires StagesOk(stages, children)
    ensures StagesOk(stages, SettleActive(children, to))
  {
    var b := SettleActive(children, to);
    SettleKeepsVerdicts(children, to);
    StateChangeKeepsVerdicts(children, b);
    forall k | 0 <= k < |stages| ensures StageOk(b, stages[k]) {
      assert StageOk(children, stages[k]);
    }
  }

  /** The part of the invariant that does not mention the run state. */
  ghost predicate TreeInv(stages: seq<Stage>, children: seq<Child>) {
    && ChildrenPlaced(stages, children)
    && DependenciesDone(stages, children)
    && ChildStatesOk(children)
    && Owned(children)
    && AttemptsOk(children)
    && AgentsDistinct(children)
    && StagesOk(stages, children)
    && Bounded(stages, children)
    && CanaryFirst(stages, children)
  }

  lemma SettleKeepsTree(stages: seq<Stage>, children: seq<Child>, to: StageState)
    requires TreeInv(stages, children) && to in {StageState.Blocked, StageState.Cancelled}
    ensures TreeInv(stages, SettleActive(children, to)) && NoneActive(SettleActive(children, to))
  {
    hide ChildrenPlaced, DependenciesDone, Owned, AttemptsOk, AgentsDistinct, StagesOk, Bounded, CanaryFirst,
      HasSucceeded, NoneActive, StateChange;
    var b := SettleActive(children, to);
    SettleKeepsVerdicts(children, to);
    StateChangeKeepsIdentity(stages, children, b);
    StateChangeKeepsBounds(stages, children, b);
    StateChangeKeepsCanary(stages, children, b);
    SettleKeepsStages(stages, children, to);
  }

  // ---- record_outcome ----------------------------------------------------------------------

  ghost predicate RunningChild(children: seq<Child>, i: nat) {
    i < |children| && children[i].state.IsActive()
  }

  function WithOutcome(children: seq<Child>, i: nat, outcome: ChildOutcome, code: Option<string>): seq<Child>
    requires i < |children|
  {
    children[i := children[i].(state := OutcomeState(outcome), errorCode := code)]
  }

  /** One outcome adds exactly its own verdict. */
  lemma OutcomeVerdicts(children: seq<Child>, i: nat, outcome: ChildOutcome, code: Option<string>)
    requires RunningChild(children, i)
    ensures var b := WithOutcome(children, i, outcome, code);
      && StateChange(children, b)
      && (forall sid, tid :: HasSucceeded(b, sid, tid) <==>
           HasSucceeded(children, sid, tid) || (outcome == Success && Of(children[i], sid, tid)))
      && (forall sid :: HasFailed(b, sid) <==>
           HasFailed(children, sid) || (outcome == Failure && children[i].stageId == sid))
  {
  }

  lemma FailedStageIncomplete(stages: seq<Stage>, children: seq<Child>, k: nat)
    requires Owned(children) && ChildrenPlaced(stages, children) && k < |stages|
    requires HasFailed(children, stages[k].id)
    ensures !AllTargetsSucceeded(children, stages[k])
  {
  }

  lemma RefreshedStageOk(
    stages: seq<Stage>, children: seq<Child>, i: nat, outcome: ChildOutcome, code: Option<string>, k: nat)
    requires DistinctStages(stages) && ChildrenPlaced(stages, children) && Owned(children)
    requires StagesOk(stages, children) && RunningChild(children, i) && k < |stages|
    ensures var b := WithOutcome(children, i, outcome, code);
      StageOk(b, RefreshedStages(stages, b, children[i].stageId)[k])
    ensures stages[k].id == children[i].stageId ==> stages[k].state in {StageState.Running, StageState.Failed}
  {
    var b := WithOutcome(children, i, outcome, code);
    var st := stages[k];
    assert StageOk(children, st);
    OutcomeVerdicts(children, i, outcome, code);
    StateChangeKeepsVerdicts(children, b);
    if st.id == children[i].stageId {
      StageWithOpenVerdict(stages, children, i, k);
      assert HasChild(children, st.id);
      assert Owned(b) && ChildrenPlaced(stages, b);
      if HasFailed(b, st.id) {
        FailedStageIncomplete(stages, b, k);
      }
    }
  }

  lemma RefreshKeepsSucceeded(
    stages: seq<Stage>, children: seq<Child>, i: nat, outcome: ChildOutcome, code: Option<string>, d: Id)
    requires DistinctStages(stages) && ChildrenPlaced(stages, children) && Owned(children)
    requires StagesOk(stages, children) && RunningChild(children, i)
    requires StageSucceeded(stages, d)
    ensures StageSucceeded(RefreshedStages(stages, WithOutcome(children, i, outcome, code), children[i].stageId), d)
  {
    var b := WithOutcome(children, i, outcome, code);
    var r := RefreshedStages(stages, b, children[i].stageId);
    var k :| 0 <= k < |stages| && stages[k].id == d && stages[k].state == StageState.Succeeded;
    RefreshedStageOk(stages, children, i, outcome, code, k);
    assert r[k] == stages[k];
  }

  lemma RefreshKeepsStages(
    stages: seq<Stage>, children: seq<Child>, i: nat, outcome: ChildOutcome, code: Option<string>)
    requires DistinctStages(stages) && ChildrenPlaced(stages, children) && Owned(children)
    requires StagesOk(stages, children) && RunningChild(children, i)
    ensures var b := WithOutcome(children, i, outcome, code);
      StagesOk(RefreshedStages(stages, b, children[i].stageId), b)
  {
    hide StageOk;
    var b := WithOutcome(children, i, outcome, code);
    var r := RefreshedStages(stages, b, children[i].stageId);
    forall k | 0 <= k < |r| ensures StageOk(b, r[k]) {
      RefreshedStageOk(stages, children, i, outcome, code, k);
    }
  }

  lemma RefreshKeepsTree(
    stages: seq<Stage>, children: seq<Child>, i: nat, outcome: ChildOutcome, code: Option<string>)
    requires DistinctStages(stages) && TreeInv(stages, children) && RunningChild(children, i)
    requires OutcomeCodeOk(outcome, code)
    ensures var b := WithOutcome(children, i, outcome, code);
      var r := RefreshedStages(stages, b, children[i].stageId);
      TreeInv(r, b) && SameGraph(stages, r)
  {
    hide ChildrenPlaced, DependenciesDone, Owned, AttemptsOk, AgentsDistinct, StagesOk, Bounded, CanaryFirst,
      StateChange, StageSucceeded, HasSucceeded, HasFailed, DistinctStages;
    var b := WithOutcome(children, i, outcome, code);
    var r := RefreshedStages(stages, b, children[i].stageId);
    OutcomeVerdicts(children, i, outcome, code);
    StateChangeKeepsIdentity(stages, children, b);
    StateChangeKeepsBounds(stages, children, b);
    StateChangeKeepsCanary(stages, children, b);
    RefreshKeepsStages(stages, children, i, outcome, code);
    assert SameGraph(stages, r);
    GraphChangeKeepsPlacement(stages, r, b);
    forall d | StageSucceeded(stages, d) ensures StageSucceeded(r, d) {
      RefreshKeepsSucceeded(stages, children, i, outcome, code, d);
    }
    GraphChangeKeepsDependencies(stages, r, b);
  }

  lemma GraphChangeKeepsDependencies(a: seq<Stage>, b: seq<Stage>, children: seq<Child>)
    requires SameGraph(a, b) && DependenciesDone(a, children)
    requires forall d :: StageSucceeded(a, d) ==> StageSucceeded(b, d)
    ensures DependenciesDone(b, children)
  {
  }

  lemma GraphChangeKeepsPlacement(a: seq<Stage>, b: seq<Stage>, children: seq<Child>)
    requires SameGraph(a, b)
    requires ChildrenPlaced(a, children) && Bounded(a, children) && CanaryFirst(a, children)
    ensures ChildrenPlaced(b, children) && Bounded(b, children) && CanaryFirst(b, children)
  {
  }

  /** Once every stage has succeeded nothing is still running. */
  lemma CompleteMeansIdle(stages: seq<Stage>, children: seq<Child>)
    requires TreeInv(stages, children) && AllStagesSucceeded(stages)
    ensures NoneActive(children)
  {
  }

  lemma RecordKeepsInv(s: Fleet, i: nat, outcome: ChildOutcome, code: Option<string>, now: nat)
    requires Inv(s) && s.state == RunState.Executing && RunningChild(s.children, i) && OutcomeCodeOk(outcome, code)
    ensures Inv(Recorded(s, i, outcome, code, now))
  {
    hide ChildrenPlaced, DependenciesDone, ChildStatesOk, Owned, AttemptsOk, AgentsDistinct, StagesOk, Bounded,
      CanaryFirst, SettleActive, RefreshedStages, GraphValid, OutcomeCodeOk, AllStagesSucceeded, AnyStageFailed,
      NoneActive;
    var b := WithOutcome(s.children, i, outcome, code);
    var r := RefreshedStages(s.stages, b, s.children[i].stageId);
    GraphIsDistinct(s);
    RefreshKeepsTree(s.stages, s.children, i, outcome, code);
    SettleKeepsTree(r, b, StageState.Blocked);
    SameGraphValid(s.production, s.targets, s.stages, r);
    if AnyStageFailed(r) {
      FailedNotComplete(r);
    }
    if AllStagesSucceeded(r) {
      CompleteMeansIdle(r, b);
    }
  }

  lemma FailedNotComplete(stages: seq<Stage>)
    requires AnyStageFailed(stages)
    ensures !AllStagesSucceeded(stages)
  {
  }

  // ---- pause, continue_after_review, cancel --------------------------------------------------

  lemma PauseKeepsInv(s: Fleet, now: nat)
    requires Inv(s) && s.state == RunState.Executing
    ensures Inv(Paused(s, now))
  {
    hide ChildrenPlaced, DependenciesDone, ChildStatesOk, Owned, AttemptsOk, AgentsDistinct, StagesOk, Bounded,
      CanaryFirst, SettleActive, GraphValid;
    SettleKeepsTree(s.stages, s.children, StageState.Blocked);
  }

  lemma CancelKeepsInv(s: Fleet, now: nat)
    requires Inv(s)
    ensures Inv(CancelledFleet(s, now))
  {
    hide ChildrenPlaced, DependenciesDone, ChildStatesOk, Owned, AttemptsOk, AgentsDistinct, StagesOk, Bounded,
      CanaryFirst, SettleActive, GraphValid;
    SettleKeepsTree(s.stages, s.children, StageState.Cancelled);
  }

  lemma ReopenKeepsTree(stages: seq<Stage>, children: seq<Child>)
    requires TreeInv(stages, children)
    ensures TreeInv(ReopenedStages(stages, children), children)
    ensures SameGraph(stages, ReopenedStages(stages, children))
  {
    hide ChildrenPlaced, DependenciesDone, Owned, AttemptsOk, AgentsDistinct, Bounded, CanaryFirst, ChildStatesOk,
      HasUnsettledTarget;
    var r := ReopenedStages(stages, children);
    forall k | 0 <= k < |r| ensures StageOk(children, r[k]) {
      assert StageOk(children, stages[k]);
    }
    GraphChangeKeepsPlacement(stages, r, children);
    forall d | StageSucceeded(stages, d) ensures StageSucceeded(r, d) {
      var m :| 0 <= m < |stages| && stages[m].id == d && stages[m].state == StageState.Succeeded;
      assert r[m] == stages[m];
    }
    GraphChangeKeepsDependencies(stages, r, children);
  }

  lemma ContinueKeepsInv(s: Fleet, now: nat)
    requires Inv(s) && s.state == RunState.PausedForReview
    ensures Inv(Continued(s, now))
  {
    hide ChildrenPlaced, DependenciesDone, ChildStatesOk, Owned, AttemptsOk, AgentsDistinct, StagesOk, Bounded,
      CanaryFirst, GraphValid;
    ReopenKeepsTree(s.stages, s.children);
    SameGraphValid(s.production, s.targets, s.stages, ReopenedStages(s.stages, s.children));
    var k :| 0 <= k < |s.stages| && s.stages[k].state != StageState.Succeeded;
    assert ReopenedStages(s.stages, s.children)[k].state != StageState.Succeeded;
  }
}
