/**
 Concrete Fleet runs behind two results that say when a property fails: a run a single failure keeps from
 ever completing, and a run whose stored metadata is refused because a pair was leased again at the limit.
 */
module FleetWitnesses {
  import opened Basics
  import opened FleetModel
  import opened FleetSchedule
  import opened FleetInvariants
  import opened FleetClaims
  import opened FleetClaimKeeps
  import opened FleetOutcomes
  import opened FleetRuns
  import opened FleetProgress
  import opened FleetCompletion

  const TARGETS := [Target(1, 11, None, 0), Target(2, 12, None, 1)]
  const ONE_STAGE := [Stage(5, "inspect", [1], [], RollingBatch, 1, StageState.Pending)]

  /** One stage on the first of two targets, approved. */
  function Start(policy: FailurePolicy): (s: Fleet) {
    Fleet(7, 1, RunState.Approved, true, policy, TARGETS, ONE_STAGE, [],
      Digest(true, policy, TARGETS, ONE_STAGE), Live, 0)
  }

  /** The approval of such a run. */
  function Consent(policy: FailurePolicy): (a: Approval) {
    Approval(100, 7, 1, Digest(true, policy, TARGETS, ONE_STAGE), TARGETS, 1, "policy", ApprovalState.Granted, None,
      0, Some(0))
  }

  lemma StartInv(policy: FailurePolicy)
    ensures Inv(Start(policy)) && Authorized(Start(policy), Consent(policy), 1, "policy", RESUMABLE)
  {
    var s := Start(policy);
    assert TARGETS[0].profileId == 1 && TARGETS[1].profileId == 2;
    assert Ranked(ONE_STAGE, map[]);
    assert GraphOk(s);
    FreshFleetInv(s);
  }

  lemma AppendStep(states: seq<Fleet>, steps: seq<Step>, step: Step, t: Fleet)
    requires Run(states, steps)
    requires GraphOk(states[|steps|]) && Fresh(states[|steps|], step) && t == After(states[|steps|], step)
    ensures Run(states + [t], steps + [step])
  {
    hide After, GraphValid, Fresh;
    var longer, more := states + [t], steps + [step];
    forall n | 0 <= n < |more|
      ensures GraphOk(longer[n]) && Fresh(longer[n], more[n]) && longer[n + 1] == After(longer[n], more[n])
    {
      if n < |steps| {
        assert longer[n] == states[n] && longer[n + 1] == states[n + 1] && more[n] == steps[n];
      }
    }
  }

  // ---- One failure -------------------------------------------------------------------------------

  /** Claims one lease and reports its failure, under a policy that goes on. */
  lemma HarmedRun() returns (states: seq<Fleet>, steps: seq<Step>)
    ensures Run(states, steps) && states[0] == Start(Continue)
    ensures var s := states[|steps|];
      && Inv(s) && Authorized(s, Consent(Continue), 1, "policy", RESUMABLE) && !CanComplete(s)
  {
    hide Inv, GraphValid, Authorized, CanComplete, After, Run;
    StartInv(Continue);
    var s := Start(Continue);
    StartsIdle(s);
    InvHasGraph(s);
    states, steps := [s], [];
    NoSteps(s);
    var claim := ClaimStep(Consent(Continue), 1, "policy", 1, 0, 0);
    var t := After(s, claim);
    ClaimedOnce(s, Consent(Continue));
    AppendStep(states, steps, claim, t);
    states, steps := states + [t], steps + [claim];
    RunLength(states, steps);
    InvHasGraph(t);
    var agent := FailureHarms(t);
    var failure := OutcomeStep(agent, Failure, None, 0);
    var u := After(t, failure);
    AppendStep(states, steps, failure, u);
    states, steps := states + [u], steps + [failure];
    RunLength(states, steps);
    StillAuthorized(s, u);
    CompletableIffUnharmed(u, Consent(Continue), 1, "policy");
  }

  lemma NoSteps(s: Fleet)
    ensures Run([s], [])
  {
  }

  lemma StartsIdle(s: Fleet)
    requires s.children == []
    ensures NoneActive(s.children) && Unharmed(s.children) && IdsBelow(s.children, 0)
  {
  }

  lemma ClaimedOnce(s: Fleet, a: Approval)
    requires Inv(s) && Authorized(s, a, 1, "policy", RESUMABLE) && s.state == RunState.Approved && s.children == []
    ensures GraphOk(s) && Fresh(s, ClaimStep(a, 1, "policy", 1, 0, 0))
    ensures var t := After(s, ClaimStep(a, 1, "policy", 1, 0, 0));
      Inv(t) && SameRun(s, t) && t.state == RunState.Executing && !NoneActive(t.children)
  {
    hide Inv, Claimed;
    InvHasGraph(s);
    StartsIdle(s);
    ClaimAdvances(s, 1, 0, 0);
  }

  /** A failure under a policy that goes on leaves the run executing, and harmed. */
  lemma FailureHarms(s: Fleet) returns (agent: Id)
    requires Inv(s) && s.state == RunState.Executing && s.recovery == Live && !NoneActive(s.children)
    requires s.failurePolicy == Continue
    ensures GraphOk(s)
    ensures var t := After(s, OutcomeStep(agent, Failure, None, 0));
      Inv(t) && SameRun(s, t) && t.state == RunState.Executing && !Unharmed(t.children)
  {
    hide Inv, RefreshedStages;
    InvHasGraph(s);
    agent := SuccessAdvances(s);
    var i := FindRunning(s.children, agent);
    var t := Recorded(s, i, Failure, None, 0);
    RecordKeepsInv(s, i, Failure, None, 0);
    assert t.children[i].state == StageState.Failed;
    if t.state == RunState.Verifying {
      VerifyingIsUnharmed(t);
    }
  }

  lemma StillAuthorized(s: Fleet, t: Fleet)
    requires Authorized(s, Consent(Continue), 1, "policy", RESUMABLE)
    requires exists u :: SameRun(s, u) && SameRun(u, t)
    requires t.state == RunState.Executing
    ensures Authorized(t, Consent(Continue), 1, "policy", RESUMABLE)
  {
  }

  // ---- The attempt limit ---------------------------------------------------------------------------

  /** Idle after `n` attempts of the one pair, all of them blocked by a pause. */
  ghost predicate Tried(s: Fleet, n: nat) {
    && Inv(s) && SameRun(Start(Stop), s) && s.state in {RunState.Approved, RunState.Executing}
    && |s.children| == n && IdsBelow(s.children, n) && NoneActive(s.children) && Unharmed(s.children)
    && AllOfPair(s) && SameGraph(ONE_STAGE, s.stages)
  }

  /** Every child is an attempt of the one pair there is. */
  ghost predicate AllOfPair(s: Fleet) {
    forall i :: 0 <= i < |s.children| ==> Of(s.children[i], 5, 1)
  }

  lemma OnePair(s: Fleet)
    requires Inv(s) && SameGraph(ONE_STAGE, s.stages)
    ensures AllOfPair(s)
  {
    hide DependenciesDone, ChildStatesOk, Owned, AttemptsOk, AgentsDistinct, StagesOk, Bounded, CanaryFirst,
      RunStateOk, GraphValid;
    forall i | 0 <= i < |s.children| ensures Of(s.children[i], 5, 1) {
      var k :| 0 <= k < |s.stages| && s.stages[k].id == s.children[i].stageId;
      assert s.stages[0] == ONE_STAGE[0].(state := s.stages[0].state);
    }
  }

  lemma ClaimTakesOne(s: Fleet, n: nat)
    requires Tried(s, n)
    ensures GraphOk(s)
    ensures var t := Claimed(s, 1, 0, n);
      && Inv(t) && SameRun(s, t) && t.state == RunState.Executing
      && |t.children| == n + 1 && IdsBelow(t.children, n + 1) && Unharmed(t.children)
  {
    hide Inv, Claimed, Unharmed, NoneActive, SameRun, AllOfPair;
    InvHasGraph(s);
    ClaimAdvances(s, 1, 0, n);
    ClaimKeepsInv(s, 1, 0, n);
    ClaimGrows(s, n);
  }

  lemma ClaimGrows(s: Fleet, n: nat)
    requires Inv(s) && s.state in {RunState.Approved, RunState.Executing}
    requires NoneActive(s.children) && Unharmed(s.children)
    ensures |ClaimPlan(s, 1)| == 1 && |Claimed(s, 1, 0, n).children| == |s.children| + 1
  {
    hide ClaimPlan, GraphValid, ChildrenPlaced, DependenciesDone, ChildStatesOk, Owned, AttemptsOk, AgentsDistinct,
      StagesOk, Bounded, CanaryFirst, RunStateOk;
    SchedulerProgress(s, 1);
  }

  /** Claim, pause, continue: one more blocked attempt. */
  lemma Round(s: Fleet, n: nat)
    requires Tried(s, n)
    ensures GraphOk(s)
    ensures var t := Claimed(s, 1, 0, n);
      Inv(t) && t.state == RunState.Executing && SameRun(s, t)
      && Inv(Paused(t, 0)) && Tried(Continued(Paused(t, 0), 0), n + 1)
  {
    hide Inv, Claimed, GraphOk, SameGraph;
    ClaimTakesOne(s, n);
    var t := Claimed(s, 1, 0, n);
    PauseKeepsInv(t, 0);
    var p := Paused(t, 0);
    ContinueKeepsInv(p, 0);
    var u := Continued(p, 0);
    RoundKeepsGraph(s, n);
    OnePair(u);
  }

  lemma RoundKeepsGraph(s: Fleet, n: nat)
    requires Tried(s, n) && GraphOk(s)
    ensures SameGraph(ONE_STAGE, Continued(Paused(Claimed(s, 1, 0, n), 0), 0).stages)
  {
    hide Inv, GraphOk, Claimed, SameGraph, AllOfPair, Unharmed, NoneActive, IdsBelow;
    var t := Claimed(s, 1, 0, n);
    var u := Continued(Paused(t, 0), 0);
    ClaimKeepsSucceeded(s, 1, 0, n);
    ReopeningKeepsGraph(t.stages, Paused(t, 0).children);
    SameGraphTransitive(ONE_STAGE, s.stages, t.stages);
    SameGraphTransitive(ONE_STAGE, t.stages, u.stages);
  }

  lemma ReopeningKeepsGraph(stages: seq<Stage>, children: seq<Child>)
    ensures SameGraph(stages, ReopenedStages(stages, children))
  {
    hide HasUnsettledTarget;
  }

  /** The three steps of a round, taken by the operations themselves. */
  lemma RoundSteps(s: Fleet, n: nat)
    requires Tried(s, n)
    ensures GraphOk(s) && Fresh(s, ClaimStep(Consent(Stop), 1, "policy", 1, 0, n))
    ensures var t := Claimed(s, 1, 0, n);
      && Fresh(t, PauseStep(0)) && Fresh(Paused(t, 0), ContinueStep(Consent(Stop), 1, "policy", 0))
      && After(s, ClaimStep(Consent(Stop), 1, "policy", 1, 0, n)) == t
      && GraphOk(t) && After(t, PauseStep(0)) == Paused(t, 0)
      && GraphOk(Paused(t, 0))
      && After(Paused(t, 0), ContinueStep(Consent(Stop), 1, "policy", 0)) == Continued(Paused(t, 0), 0)
      && Tried(Continued(Paused(t, 0), 0), n + 1)
  {
    hide Inv, Claimed, GraphOk, SameGraph, NoneActive, Unharmed, AllOfPair, ReopenedStages, SettleActive;
    Round(s, n);
    InvHasGraph(Claimed(s, 1, 0, n));
    InvHasGraph(Paused(Claimed(s, 1, 0, n), 0));
  }

  /** For every n some run from the approved start makes n attempts of the pair. */
  lemma {:induction false} Rounds(n: nat) returns (states: seq<Fleet>, steps: seq<Step>)
    ensures Run(states, steps) && states[0] == Start(Stop) && Tried(states[|steps|], n)
  {
    hide Run, Tried, After, Fresh, Claimed, Paused, Continued, GraphOk;
    if n == 0 {
      states, steps := [Start(Stop)], [];
      NoSteps(Start(Stop));
      StartTried();
    } else {
      states, steps := Rounds(n - 1);
      RunLength(states, steps);
      var s := states[|steps|];
      RoundSteps(s, n - 1);
      var t := Claimed(s, 1, 0, n - 1);
      var claim, pause := ClaimStep(Consent(Stop), 1, "policy", 1, 0, n - 1), PauseStep(0);
      var proceed := ContinueStep(Consent(Stop), 1, "policy", 0);
      states, steps := TakesStep(states, steps, claim, t);
      states, steps := TakesStep(states, steps, pause, Paused(t, 0));
      states, steps := TakesStep(states, steps, proceed, Continued(Paused(t, 0), 0));
    }
  }

  lemma TakesStep(states: seq<Fleet>, steps: seq<Step>, step: Step, t: Fleet)
    returns (longer: seq<Fleet>, more: seq<Step>)
    requires Run(states, steps)
    requires GraphOk(states[|steps|]) && Fresh(states[|steps|], step) && t == After(states[|steps|], step)
    ensures Run(longer, more) && |longer| == |more| + 1 && longer[0] == states[0] && longer[|more|] == t
  {
    hide After, GraphOk, Fresh;
    AppendStep(states, steps, step, t);
    longer, more := states + [t], steps + [step];
  }

  lemma StartTried()
    ensures Tried(Start(Stop), 0)
  {
    hide Inv;
    StartInv(Stop);
  }

  lemma {:induction false} PairCountIsAll(children: seq<Child>)
    requires forall i :: 0 <= i < |children| ==> Of(children[i], 5, 1)
    ensures PairCount(children, 5, 1) == |children|
  {
    if children != [] {
      PairCountIsAll(children[..|children| - 1]);
    }
  }

  lemma TriedAttempt(s: Fleet, n: nat, i: nat)
    requires Tried(s, n) && i < n
    ensures Of(s.children[i], 5, 1) && s.children[i].attempt == Min(i + 1, MAX_ATTEMPT)
  {
    hide GraphOk, ChildrenPlaced, DependenciesDone, ChildStatesOk, Owned, AgentsDistinct, StagesOk, Bounded,
      CanaryFirst, RunStateOk, NoneActive, Unharmed, SameGraph, IdsBelow, PairCount;
    PairCountIsAll(s.children[..i]);
  }

  /** One attempt past the limit the run's metadata is invalid: its pair was leased again at the limit. */
  lemma SaturatedRun() returns (states: seq<Fleet>, steps: seq<Step>)
    ensures Run(states, steps) && states[0] == Start(Stop) && Inv(states[0])
    ensures var s := states[|steps|];
      && Inv(s) && |s.children| == MAX_ATTEMPT + 1
      && SamePair(s.children[MAX_ATTEMPT - 1], s.children[MAX_ATTEMPT])
      && s.children[MAX_ATTEMPT - 1].attempt == s.children[MAX_ATTEMPT].attempt == MAX_ATTEMPT
      && !MetadataValid(s)
  {
    hide Run, Inv, MetadataValid, Tried;
    StartInv(Stop);
    states, steps := Rounds(MAX_ATTEMPT + 1);
    RunLength(states, steps);
    var s := states[|steps|];
    TriedIs(s, MAX_ATTEMPT + 1);
    TriedAttempt(s, MAX_ATTEMPT + 1, MAX_ATTEMPT - 1);
    TriedAttempt(s, MAX_ATTEMPT + 1, MAX_ATTEMPT);
    MetadataValidIffUnsaturated(s);
  }

  lemma TriedIs(s: Fleet, n: nat)
    requires Tried(s, n)
    ensures Inv(s) && |s.children| == n
  {
    hide Inv;
  }
}
