/**
 What a claim answers, said without the scheduler: which pairs are due, in which order they are taken,
 and why a due pair may be left. These demands have exactly one solution, and the scheduler finds it.
 */
module FleetClaimAnswer {
  import opened Basics
  import opened FleetModel
  import opened FleetSchedule
  import opened FleetInvariants
  import opened FleetClaims
  import opened FleetClaimKeeps

  /** A pair by position: the stage in the graph, the target in the stage. */
  datatype Spot = Spot(stage: nat, target: nat)

  predicate Before(a: Spot, b: Spot) {
    a.stage < b.stage || (a.stage == b.stage && a.target < b.target)
  }

  predicate InGraph(stages: seq<Stage>, p: Spot) {
    p.stage < |stages| && p.target < |stages[p.stage].targetIds|
  }

  /** The pair waits to be leased: its stage is open, all it depends on and its canary have succeeded. */
  ghost predicate Due(s: Fleet, p: Spot) {
    && InGraph(s.stages, p)
    && var st := s.stages[p.stage];
       && st.state in {StageState.Pending, StageState.Running}
       && (forall d :: d in st.dependsOn ==>
            exists m :: 0 <= m < |s.stages| && s.stages[m].id == d && s.stages[m].state == StageState.Succeeded)
       && (forall i :: 0 <= i < |s.children| && Of(s.children[i], st.id, st.targetIds[p.target]) ==>
            s.children[i].state !in {StageState.Running, StageState.AwaitingApproval, StageState.Verifying,
              StageState.Succeeded, StageState.Failed, StageState.Cancelled, StageState.RolledBack,
              StageState.RollbackFailed})
       && (st.strategy == Canary && p.target != 0 ==>
            exists i :: 0 <= i < |s.children| && Of(s.children[i], st.id, st.targetIds[0])
                     && s.children[i].state == StageState.Succeeded)
  }

  /** The new child of a pair: running, its attempt one more than the pair has had children, up to the limit. */
  function Seat(s: Fleet, p: Spot, agent: Id): Child
    requires InGraph(s.stages, p)
  {
    var st := s.stages[p.stage];
    var target := st.targetIds[p.target];
    Child(st.id, target, Some(agent), Min(PairCount(s.children, st.id, target) + 1, MAX_ATTEMPT),
      StageState.Running, None)
  }

  /** The leases stand behind the children, running, under fresh agents, each a new attempt at its pair. */
  ghost predicate Seated(s: Fleet, t: Fleet, spots: seq<Spot>, firstId: Id) {
    && |t.children| == |s.children| + |spots|
    && t.children[..|s.children|] == s.children
    && forall n :: 0 <= n < |spots| ==>
         && InGraph(s.stages, spots[n])
         && t.children[|s.children| + n] == Seat(s, spots[n], firstId + n)
  }

  /** No slot is left over all stages, and `p` comes after everything taken. */
  ghost predicate FleetFull(t: Fleet, requested: nat, spots: seq<Spot>, p: Spot) {
    ActiveCount(t.children) >= Min(requested, 10) && forall n :: 0 <= n < |spots| ==> Before(spots[n], p)
  }

  /** No slot is left in the stage of `p`, and `p` comes after everything taken there. */
  ghost predicate StageFull(s: Fleet, t: Fleet, spots: seq<Spot>, p: Spot) {
    && p.stage < |s.stages|
    && ActiveIn(t.children, s.stages[p.stage].id) >= s.stages[p.stage].concurrencyLimit
    && forall n :: 0 <= n < |spots| && spots[n].stage == p.stage ==> spots[n].target < p.target
  }

  /** Due pairs are taken in order, within the limits, and none is left that either limit leaves room for. */
  ghost predicate Greedy(s: Fleet, t: Fleet, requested: nat, spots: seq<Spot>) {
    && (forall m, n :: 0 <= m < n < |spots| ==> Before(spots[m], spots[n]))
    && (forall n :: 0 <= n < |spots| ==> Due(s, spots[n]))
    && (spots != [] ==> ActiveCount(t.children) <= Min(requested, 10))
    && (forall k :: 0 <= k < |s.stages| ==> ActiveIn(t.children, s.stages[k].id) <= s.stages[k].concurrencyLimit)
    && (forall p :: Due(s, p) && p !in spots ==> FleetFull(t, requested, spots, p) || StageFull(s, t, spots, p))
  }

  /** A stage with a lease runs; a pending stage behind a failed or blocked one is blocked; the rest stay. */
  ghost predicate StagesFollow(s: Fleet, t: Fleet, spots: seq<Spot>) {
    && |t.stages| == |s.stages|
    && forall k :: 0 <= k < |s.stages| ==>
         t.stages[k] == s.stages[k].(state :=
           if exists n :: 0 <= n < |spots| && spots[n].stage == k then StageState.Running
           else if s.stages[k].state == StageState.Pending
             && exists m :: 0 <= m < |s.stages| && s.stages[m].id in s.stages[k].dependsOn
                         && s.stages[m].state in {StageState.Failed, StageState.Blocked}
           then StageState.Blocked
           else s.stages[k].state)
  }

  ghost predicate ClaimAnswer(s: Fleet, t: Fleet, requested: nat, now: nat, firstId: Id, spots: seq<Spot>) {
    && Seated(s, t, spots, firstId)
    && StagesFollow(s, t, spots)
    && Greedy(s, t, requested, spots)
    && t == s.(state := RunState.Executing, stages := t.stages, children := t.children, updatedAt := now)
  }

  // ---- The scan of one stage is greedy -------------------------------------------------------

  function IndexOf(ids: seq<Id>, t: Id): (i: nat)
    requires t in ids
    ensures i < |ids| && ids[i] == t
  {
    if ids[0] == t then 0 else 1 + IndexOf(ids[1..], t)
  }

  ghost predicate InOrderFrom(ids: seq<Id>, j: nat, picks: seq<Id>) {
    && (forall n :: 0 <= n < |picks| ==> picks[n] in ids && j <= IndexOf(ids, picks[n]))
    && (forall m, n :: 0 <= m < n < |picks| ==> IndexOf(ids, picks[m]) < IndexOf(ids, picks[n]))
  }

  lemma InOrderCons(ids: seq<Id>, j: nat, picks: seq<Id>)
    requires j < |ids| && Distinct(ids) && InOrderFrom(ids, j + 1, picks)
    ensures InOrderFrom(ids, j, [ids[j]] + picks)
  {
    assert IndexOf(ids, ids[j]) == j;
  }

  /** The picks come in the order of the stage's targets. */
  lemma {:induction false} PicksInOrder(children: seq<Child>, st: Stage, j: nat, available: nat)
    requires st.targetIds != [] && j <= |st.targetIds| && Distinct(st.targetIds)
    ensures InOrderFrom(st.targetIds, j, PickTargets(children, st, j, available))
    decreases |st.targetIds| - j
  {
    if available != 0 && j != |st.targetIds| {
      var u := st.targetIds[j];
      if !Open(children, st.id, u) || (st.strategy == Canary && u != st.targetIds[0] && !CanaryReady(children, st)) {
        PicksInOrder(children, st, j + 1, available);
      } else if st.strategy == Canary && !CanaryPassed(children, st) {
        InOrderCons(st.targetIds, j, []);
      } else {
        PicksInOrder(children, st, j + 1, available - 1);
        InOrderCons(st.targetIds, j, PickTargets(children, st, j + 1, available - 1));
      }
    }
  }

  /** A target that may be leased is never passed over for a later one. */
  lemma {:induction false} PicksGreedy(children: seq<Child>, st: Stage, j: nat, available: nat, p: nat, q: nat)
    requires st.targetIds != [] && Distinct(st.targetIds) && j <= p < q < |st.targetIds|
    requires Grantable(children, st, st.targetIds[p])
    requires st.targetIds[q] in PickTargets(children, st, j, available)
    ensures st.targetIds[p] in PickTargets(children, st, j, available)
    decreases |st.targetIds| - j
  {
    var u := st.targetIds[j];
    if !Open(children, st.id, u) || (st.strategy == Canary && u != st.targetIds[0] && !CanaryReady(children, st)) {
      PicksGreedy(children, st, j + 1, available, p, q);
    } else if st.strategy == Canary && !CanaryPassed(children, st) {
    } else if p != j {
      PicksGreedy(children, st, j + 1, available - 1, p, q);
    }
  }

  /** Why a stage leaves a target it could lease: its slots are used up, all on earlier targets. */
  lemma LeftByStage(children: seq<Child>, st: Stage, room: nat, p: nat)
    requires st.targetIds != [] && Distinct(st.targetIds) && p < |st.targetIds|
    requires Grantable(children, st, st.targetIds[p])
    requires st.targetIds[p] !in PickTargets(children, st, 0, room)
    ensures var picks := PickTargets(children, st, 0, room);
      && |picks| == room
      && forall n :: 0 <= n < |picks| ==> picks[n] in st.targetIds && IndexOf(st.targetIds, picks[n]) < p
  {
    var picks := PickTargets(children, st, 0, room);
    PicksInOrder(children, st, 0, room);
    forall n | 0 <= n < |picks| ensures IndexOf(st.targetIds, picks[n]) < p {
      if IndexOf(st.targetIds, picks[n]) > p {
        PicksGreedy(children, st, 0, room, p, IndexOf(st.targetIds, picks[n]));
      }
    }
    if |picks| < room {
      PicksExhaustive(children, st, 0, room, st.targetIds[p]);
    }
  }

  // ---- So is the plan --------------------------------------------------------------------------

  ghost predicate Aimed(stages: seq<Stage>, plan: seq<Pick>) {
    forall n :: 0 <= n < |plan| ==>
      plan[n].stage < |stages| && plan[n].targetId in stages[plan[n].stage].targetIds
  }

  function SpotOf(stages: seq<Stage>, pick: Pick): (p: Spot)
    requires pick.stage < |stages| && pick.targetId in stages[pick.stage].targetIds
  {
    Spot(pick.stage, IndexOf(stages[pick.stage].targetIds, pick.targetId))
  }

  ghost function SpotsOf(stages: seq<Stage>, plan: seq<Pick>): (spots: seq<Spot>)
    requires Aimed(stages, plan)
    ensures |spots| == |plan|
  {
    seq(|plan|, n requires 0 <= n < |plan| => SpotOf(stages, plan[n]))
  }

  ghost predicate Ordered(spots: seq<Spot>) {
    forall m, n :: 0 <= m < n < |spots| ==> Before(spots[m], spots[n])
  }

  lemma StageInOrder(stages: seq<Stage>, children: seq<Child>, k: nat, capacity: nat)
    requires k < |stages| && Targeted(stages) && TargetsDistinct(stages)
    ensures var here := Tagged(k, StagePicks(stages, children, k, capacity));
      Aimed(stages, here) && Ordered(SpotsOf(stages, here))
  {
    hide PickTargets, IndexOf;
    var picks := StagePicks(stages, children, k, capacity);
    if capacity != 0 && CanStart(stages, stages[k]) {
      PicksInOrder(children, stages[k], 0, StageRoom(children, stages[k], capacity));
    }
    assert InOrderFrom(stages[k].targetIds, 0, picks);
  }

  lemma {:induction false} PlanInOrder(stages: seq<Stage>, children: seq<Child>, k: nat, capacity: nat)
    requires k <= |stages| && Targeted(stages) && TargetsDistinct(stages)
    ensures var plan := Plan(stages, children, k, capacity);
      Aimed(stages, plan) && Ordered(SpotsOf(stages, plan))
    decreases |stages| - k
  {
    hide StagePicks;
    if k < |stages| {
      var here := StagePicks(stages, children, k, capacity);
      PlanStep(stages, children, k, capacity);
      StageInOrder(stages, children, k, capacity);
      PlanInOrder(stages, children, k + 1, capacity - |here|);
      var a, b := Tagged(k, here), Plan(stages, children, k + 1, capacity - |here|);
      var spots := SpotsOf(stages, a + b);
      assert spots == SpotsOf(stages, a) + SpotsOf(stages, b);
    }
  }

  /** The plan fills the Fleet, with nothing behind the pair at position `p` of stage `i`. */
  ghost predicate PlanFull(stages: seq<Stage>, plan: seq<Pick>, capacity: nat, i: nat, p: nat)
    requires Aimed(stages, plan)
  {
    |plan| == capacity && forall n :: 0 <= n < |plan| ==> Before(SpotOf(stages, plan[n]), Spot(i, p))
  }

  /** The plan fills stage `i`, with nothing there behind position `p`. */
  ghost predicate PlanFillsStage(stages: seq<Stage>, children: seq<Child>, plan: seq<Pick>, i: nat, p: nat)
    requires Aimed(stages, plan) && i < |stages|
  {
    && (PickCount(plan, i) >= Minus(stages[i].concurrencyLimit, ActiveIn(children, stages[i].id))
        || (stages[i].strategy == Sequential && ActiveIn(children, stages[i].id) > 0))
    && forall n :: 0 <= n < |plan| && plan[n].stage == i ==> SpotOf(stages, plan[n]).target < p
  }

  lemma LeftHere(stages: seq<Stage>, children: seq<Child>, i: nat, capacity: nat, p: nat)
    requires i < |stages| && Targeted(stages) && TargetsDistinct(stages) && p < |stages[i].targetIds|
    requires CanStart(stages, stages[i]) && Grantable(children, stages[i], stages[i].targetIds[p])
    requires stages[i].targetIds[p] !in StagePicks(stages, children, i, capacity)
    ensures var here := Tagged(i, StagePicks(stages, children, i, capacity));
      Aimed(stages, here)
      && (PlanFull(stages, here, capacity, i, p) || PlanFillsStage(stages, children, here, i, p))
  {
    if capacity != 0 {
      var room := StageRoom(children, stages[i], capacity);
      LeftByStage(children, stages[i], room, p);
      PickCountOne(Tagged(i, StagePicks(stages, children, i, capacity)), i, i);
    }
  }

  /** Why the plan leaves a pair that it could lease. */
  lemma {:induction false} LeftByPlan(
    stages: seq<Stage>, children: seq<Child>, k: nat, capacity: nat, i: nat, p: nat)
    requires k <= i < |stages| && Targeted(stages) && TargetsDistinct(stages) && p < |stages[i].targetIds|
    requires CanStart(stages, stages[i]) && Grantable(children, stages[i], stages[i].targetIds[p])
    requires Pick(i, stages[i].targetIds[p]) !in Plan(stages, children, k, capacity)
    ensures var plan := Plan(stages, children, k, capacity);
      Aimed(stages, plan)
      && (PlanFull(stages, plan, capacity, i, p) || PlanFillsStage(stages, children, plan, i, p))
    decreases |stages| - k
  {
    hide StagePicks, CanStart, Grantable, PickCount, ActiveIn, Minus;
    var here := StagePicks(stages, children, k, capacity);
    var a, b := Tagged(k, here), Plan(stages, children, k + 1, capacity - |here|);
    PlanStep(stages, children, k, capacity);
    PlanInOrder(stages, children, k, capacity);
    PickCountAppend(a, b, i);
    if i == k {
      forall n | 0 <= n < |here| ensures here[n] != stages[i].targetIds[p] {
        assert (a + b)[n] == Pick(k, here[n]);
      }
      LeftHere(stages, children, i, capacity, p);
      PickCountZero(b, i);
    } else {
      PickCountZero(a, i);
      assert forall x :: x in b ==> x in a + b;
      LeftByPlan(stages, children, k + 1, capacity - |here|, i, p);
    }
  }

  // ---- The scheduler's answer ------------------------------------------------------------------

  lemma StartsIff(s: Fleet, k: nat)
    requires DistinctStages(s.stages) && k < |s.stages|
    ensures CanStart(BlockedStages(s.stages), BlockedStages(s.stages)[k]) <==>
      && s.stages[k].state in {StageState.Pending, StageState.Running}
      && forall d :: d in s.stages[k].dependsOn ==> StageSucceeded(s.stages, d)
  {
    hide StageSucceeded;
    var b := BlockedStages(s.stages);
    forall d ensures StageSucceeded(s.stages, d) <==> StageSucceeded(b, d) {
      SucceededUnderBlocking(s.stages, d);
    }
    forall d | StageSucceeded(s.stages, d) ensures !StageStuck(s.stages, d) {
      SucceededNotStuck(s.stages, d);
    }
  }

  lemma SucceededNotStuck(stages: seq<Stage>, d: Id)
    requires DistinctStages(stages) && StageSucceeded(stages, d)
    ensures !StageStuck(stages, d)
  {
  }

  /** Due means ready and grantable once the stages behind a failure are blocked. */
  lemma DueIff(s: Fleet, p: Spot)
    requires GraphOk(s) && InGraph(s.stages, p)
    ensures Due(s, p) <==>
      && CanStart(BlockedStages(s.stages), BlockedStages(s.stages)[p.stage])
      && Grantable(s.children, BlockedStages(s.stages)[p.stage], s.stages[p.stage].targetIds[p.target])
  {
    hide CanStart, TargetsValid, Acyclic;
    assert StageValid(s.targets, s.stages, s.stages[p.stage]);
    StartsIff(s, p.stage);
  }

  lemma GraphShapes(s: Fleet)
    requires GraphOk(s)
    ensures var b := BlockedStages(s.stages);
      && DistinctStages(b) && Targeted(b) && TargetsDistinct(b)
      && forall k :: 0 <= k < |b| ==> b[k].strategy == Sequential ==> b[k].concurrencyLimit == 1
  {
    var b := BlockedStages(s.stages);
    forall k | 0 <= k < |b|
      ensures b[k].targetIds != [] && Distinct(b[k].targetIds)
      ensures b[k].strategy == Sequential ==> b[k].concurrencyLimit == 1
    {
      assert StageValid(s.targets, s.stages, s.stages[k]);
    }
  }

  /** How many children are active after a claim, over all stages and in each. */
  lemma ClaimedCounts(s: Fleet, requested: nat, now: nat, firstId: Id, k: nat)
    requires GraphOk(s) && k < |s.stages|
    ensures var t, plan := Claimed(s, requested, now, firstId), ClaimPlan(s, requested);
      && ActiveCount(t.children) == ActiveCount(s.children) + |plan|
      && ActiveIn(t.children, s.stages[k].id) == ActiveIn(s.children, s.stages[k].id) + PickCount(plan, k)
  {
    hide ClaimPlan, GraphValid, ActiveCount, ActiveIn, PickCount, StageCount;
    var b, plan := BlockedStages(s.stages), ClaimPlan(s, requested);
    var born := ChildrenOf(b, s.children, plan, firstId);
    GraphShapes(s);
    ActiveCountAppend(s.children, born);
    ActiveInAppend(s.children, born, s.stages[k].id);
    StageCountIsPickCount(b, s.children, plan, firstId, k);
  }

  ghost function ClaimSpots(s: Fleet, requested: nat): (spots: seq<Spot>)
    requires GraphOk(s)
    ensures |spots| == |ClaimPlan(s, requested)| && Ordered(spots)
  {
    GraphShapes(s);
    PlanInOrder(BlockedStages(s.stages), s.children, 0, FreeSlots(s, requested));
    SpotsOf(BlockedStages(s.stages), ClaimPlan(s, requested))
  }

  lemma SpotAt(s: Fleet, requested: nat, n: nat)
    requires GraphOk(s) && n < |ClaimPlan(s, requested)|
    ensures var p, pick := ClaimSpots(s, requested)[n], ClaimPlan(s, requested)[n];
      && p.stage == pick.stage && InGraph(s.stages, p) && s.stages[p.stage].targetIds[p.target] == pick.targetId
  {
    hide Plan, IndexOf, GraphValid;
    GraphShapes(s);
    PlanInOrder(BlockedStages(s.stages), s.children, 0, FreeSlots(s, requested));
  }

  /** The n-th lease of a claim is the child of the n-th pick. */
  lemma ClaimBears(s: Fleet, requested: nat, now: nat, firstId: Id, n: nat)
    requires GraphOk(s) && n < |ClaimPlan(s, requested)|
    ensures var t, pick := Claimed(s, requested, now, firstId), ClaimPlan(s, requested)[n];
      && |t.children| == |s.children| + |ClaimPlan(s, requested)|
      && t.children[|s.children| + n] == ChildOf(BlockedStages(s.stages), s.children, pick, firstId + n)
  {
    hide ClaimPlan, GraphValid, NextAttempt, BlockedStages;
  }

  lemma AttemptAt(s: Fleet, sid: Id, tid: Id)
    requires AttemptsOk(s.children)
    ensures NextAttempt(s.children, sid, tid) == Min(PairCount(s.children, sid, tid) + 1, MAX_ATTEMPT)
  {
    LastAttemptCounts(s.children, sid, tid);
  }

  lemma SeatOf(s: Fleet, requested: nat, now: nat, firstId: Id, n: nat)
    requires GraphOk(s) && AttemptsOk(s.children) && n < |ClaimPlan(s, requested)|
    ensures InGraph(s.stages, ClaimSpots(s, requested)[n])
    ensures var t := Claimed(s, requested, now, firstId);
      && |t.children| == |s.children| + |ClaimPlan(s, requested)|
      && t.children[|s.children| + n] == Seat(s, ClaimSpots(s, requested)[n], firstId + n)
  {
    hide ClaimPlan, ClaimSpots, GraphValid, NextAttempt, AttemptsOk, PairCount, Claimed;
    var pick := ClaimPlan(s, requested)[n];
    SpotAt(s, requested, n);
    ClaimBears(s, requested, now, firstId, n);
    AttemptAt(s, s.stages[pick.stage].id, pick.targetId);
  }

  lemma ClaimIsSeated(s: Fleet, requested: nat, now: nat, firstId: Id)
    requires Inv(s)
    ensures Seated(s, Claimed(s, requested, now, firstId), ClaimSpots(s, requested), firstId)
  {
    hide ClaimPlan, ClaimSpots, GraphValid, AttemptsOk, PairCount, ChildrenPlaced, DependenciesDone, ChildStatesOk,
      Owned, AgentsDistinct, StagesOk, Bounded, CanaryFirst, RunStateOk, BlockedStages, MarkRunning, ChildOf;
    forall n | 0 <= n < |ClaimSpots(s, requested)|
      ensures InGraph(s.stages, ClaimSpots(s, requested)[n])
      ensures Claimed(s, requested, now, firstId).children[|s.children| + n]
           == Seat(s, ClaimSpots(s, requested)[n], firstId + n)
    {
      SeatOf(s, requested, now, firstId, n);
    }
  }

  lemma ClaimStagesFollow(s: Fleet, requested: nat, now: nat, firstId: Id)
    requires GraphOk(s)
    ensures StagesFollow(s, Claimed(s, requested, now, firstId), ClaimSpots(s, requested))
  {
    hide ClaimPlan, ClaimSpots, GraphValid, ChildrenOf;
    var plan, spots := ClaimPlan(s, requested), ClaimSpots(s, requested);
    forall n | 0 <= n < |plan| ensures spots[n].stage == plan[n].stage {
      SpotAt(s, requested, n);
    }
    forall k | 0 <= k < |s.stages|
      ensures Picked(plan, k) <==> exists n :: 0 <= n < |spots| && spots[n].stage == k
    {
      if n :| 0 <= n < |spots| && spots[n].stage == k {
        assert plan[n].stage == k;
      }
      if n :| 0 <= n < |plan| && plan[n].stage == k {
        assert spots[n].stage == k;
      }
    }
  }

  lemma DueInGraph(s: Fleet, p: Spot)
    requires Due(s, p)
    ensures InGraph(s.stages, p)
  {
  }

  lemma SpotsMeetPlan(s: Fleet, requested: nat, p: Spot)
    requires GraphOk(s) && InGraph(s.stages, p) && p !in ClaimSpots(s, requested)
    ensures Pick(p.stage, s.stages[p.stage].targetIds[p.target]) !in ClaimPlan(s, requested)
  {
    hide ClaimPlan, ClaimSpots, GraphValid;
    GraphShapes(s);
    forall n | 0 <= n < |ClaimPlan(s, requested)|
      ensures ClaimPlan(s, requested)[n] != Pick(p.stage, s.stages[p.stage].targetIds[p.target])
    {
      SpotAt(s, requested, n);
      assert ClaimSpots(s, requested)[n] != p;
      assert TargetsDistinct(BlockedStages(s.stages));
      assert Distinct(BlockedStages(s.stages)[p.stage].targetIds);
    }
  }

  /** A due pair that a claim leaves finds the Fleet or its stage full, and nothing behind it taken. */
  lemma ClaimLeaves(s: Fleet, requested: nat, now: nat, firstId: Id, p: Spot)
    requires GraphOk(s) && Due(s, p) && p !in ClaimSpots(s, requested)
    ensures var t, spots := Claimed(s, requested, now, firstId), ClaimSpots(s, requested);
      FleetFull(t, requested, spots, p) || StageFull(s, t, spots, p)
  {
    hide Due, GraphValid, CanStart, Grantable, Plan, ActiveCount, ActiveIn, PickCount, IndexOf, ChildrenOf,
      TargetsDistinct, Targeted, DistinctStages;
    var b, plan := BlockedStages(s.stages), ClaimPlan(s, requested);
    DueInGraph(s, p);
    DueIff(s, p);
    GraphShapes(s);
    SpotsMeetPlan(s, requested, p);
    LeftByPlan(b, s.children, 0, FreeSlots(s, requested), p.stage, p.target);
    ClaimedCounts(s, requested, now, firstId, p.stage);
  }

  lemma ClaimIsGreedy(s: Fleet, requested: nat, now: nat, firstId: Id)
    requires Inv(s) && s.state in {RunState.Approved, RunState.Executing} && IdsBelow(s.children, firstId)
    ensures Greedy(s, Claimed(s, requested, now, firstId), requested, ClaimSpots(s, requested))
  {
    hide Due, Inv, IdsBelow, GraphValid, Claimed, ClaimPlan, ClaimSpots, FleetFull, StageFull, ActiveCount, ActiveIn;
    InvGraph(s);
    var t, spots := Claimed(s, requested, now, firstId), ClaimSpots(s, requested);
    ClaimKeepsInv(s, requested, now, firstId);
    InvBounds(t);
    ClaimStagesFollow(s, requested, now, firstId);
    forall n | 0 <= n < |spots| ensures Due(s, spots[n]) {
      ClaimTakesDue(s, requested, n);
    }
    forall p | Due(s, p) && p !in spots ensures FleetFull(t, requested, spots, p) || StageFull(s, t, spots, p) {
      ClaimLeaves(s, requested, now, firstId, p);
    }
    if spots != [] {
      ClaimTakesDue(s, requested, 0);
      DueInGraph(s, spots[0]);
      ClaimedCounts(s, requested, now, firstId, spots[0].stage);
    }
  }

  lemma InvGraph(s: Fleet)
    requires Inv(s)
    ensures GraphOk(s)
  {
  }

  lemma InvBounds(s: Fleet)
    requires Inv(s)
    ensures Bounded(s.stages, s.children)
  {
  }

  lemma ClaimTakesDue(s: Fleet, requested: nat, n: nat)
    requires GraphOk(s) && n < |ClaimPlan(s, requested)|
    ensures Due(s, ClaimSpots(s, requested)[n])
  {
    hide Due, GraphValid, Plan, IndexOf, CanStart, Grantable, ClaimSpots, TargetsDistinct, Targeted;
    var b := BlockedStages(s.stages);
    GraphShapes(s);
    PlanIsSound(b, s.children, 0, FreeSlots(s, requested));
    SpotAt(s, requested, n);
    DueIff(s, ClaimSpots(s, requested)[n]);
    assert Plan(b, s.children, 0, FreeSlots(s, requested)) == ClaimPlan(s, requested);
  }

  /** What a claim makes of a run is an answer. */
  lemma ClaimAnswers(s: Fleet, requested: nat, now: nat, firstId: Id)
    requires Inv(s) && s.state in {RunState.Approved, RunState.Executing} && IdsBelow(s.children, firstId)
    ensures ClaimAnswer(s, Claimed(s, requested, now, firstId), requested, now, firstId, ClaimSpots(s, requested))
  {
    hide Inv, IdsBelow, GraphValid, ClaimPlan, ClaimSpots, Seated, Greedy, StagesFollow, BlockedStages, MarkRunning,
      ChildrenOf;
    InvGraph(s);
    ClaimIsSeated(s, requested, now, firstId);
    ClaimStagesFollow(s, requested, now, firstId);
    ClaimIsGreedy(s, requested, now, firstId);
  }

  // ---- There is only one answer ------------------------------------------------------------------

  lemma {:induction false} ActiveMonotone(children: seq<Child>, sid: Id, i: nat)
    requires i <= |children|
    ensures ActiveCount(children[..i]) <= ActiveCount(children)
    ensures ActiveIn(children[..i], sid) <= ActiveIn(children, sid)
    decreases |children|
  {
    if i < |children| {
      var front := children[..|children| - 1];
      ActiveMonotone(front, sid, i);
      assert front[..i] == children[..i];
    } else {
      assert children[..i] == children;
    }
  }

  lemma {:induction false} ActiveInPrefix(children: seq<Child>, sid: Id, i: nat)
    requires i <= |children|
    requires forall n :: i <= n < |children| ==> children[n].stageId != sid
    ensures ActiveIn(children[..i], sid) == ActiveIn(children, sid)
    decreases |children|
  {
    if i < |children| {
      var front := children[..|children| - 1];
      ActiveInPrefix(front, sid, i);
      assert front[..i] == children[..i];
    } else {
      assert children[..i] == children;
    }
  }

  /** Two answers that agree on `m` leases have the same children up to there. */
  lemma SeatedAlike(s: Fleet, t: Fleet, spots: seq<Spot>, u: Fleet, others: seq<Spot>, firstId: Id, m: nat)
    requires Seated(s, t, spots, firstId) && Seated(s, u, others, firstId)
    requires m <= |spots| && m <= |others| && spots[..m] == others[..m]
    ensures t.children[..|s.children| + m] == u.children[..|s.children| + m]
  {
    var n := |s.children|;
    forall i | 0 <= i < n + m ensures t.children[i] == u.children[i] {
      if i < n {
        assert t.children[i] == t.children[..n][i] && u.children[i] == u.children[..n][i];
      } else {
        assert spots[..m][i - n] == others[..m][i - n];
        assert t.children[n + (i - n)] == u.children[n + (i - n)];
      }
    }
  }

  /** The next lease adds one active child, in its stage. */
  lemma OneMoreActive(s: Fleet, t: Fleet, spots: seq<Spot>, firstId: Id, m: nat)
    requires Seated(s, t, spots, firstId) && m < |spots|
    ensures InGraph(s.stages, spots[m])
    ensures var sid, before := s.stages[spots[m].stage].id, t.children[..|s.children| + m];
      ActiveCount(before) < ActiveCount(t.children) && ActiveIn(before, sid) < ActiveIn(t.children, sid)
  {
    var sid, n := s.stages[spots[m].stage].id, |s.children| + m;
    ActiveMonotone(t.children, sid, n + 1);
    assert t.children[..n + 1][..n] == t.children[..n];
  }

  /** A stage that is full with nothing behind `p` was full when the first `m` leases were made. */
  lemma FullBefore(s: Fleet, u: Fleet, others: seq<Spot>, firstId: Id, m: nat, p: Spot)
    requires DistinctStages(s.stages) && InGraph(s.stages, p)
    requires Seated(s, u, others, firstId) && m <= |others|
    requires forall n :: m <= n < |others| ==> others[n].stage != p.stage
    ensures var sid := s.stages[p.stage].id;
      ActiveIn(u.children[..|s.children| + m], sid) == ActiveIn(u.children, sid)
  {
    var sid := s.stages[p.stage].id;
    forall i | |s.children| + m <= i < |u.children| ensures u.children[i].stageId != sid {
      assert u.children[|s.children| + (i - |s.children|)].stageId == s.stages[others[i - |s.children|].stage].id;
    }
    ActiveInPrefix(u.children, sid, |s.children| + m);
  }

  /** Where one answer is full behind `m` common leases, a next lease overfills the other. */
  lemma NextOverfills(
    s: Fleet, requested: nat, firstId: Id, t: Fleet, spots: seq<Spot>, u: Fleet, others: seq<Spot>, m: nat)
    requires DistinctStages(s.stages) && Seated(s, t, spots, firstId) && Seated(s, u, others, firstId)
    requires m < |spots| && m <= |others| && spots[..m] == others[..m]
    requires forall n :: m <= n < |others| ==> Before(spots[m], others[n])
    requires FleetFull(u, requested, others, spots[m]) || StageFull(s, u, others, spots[m])
    ensures InGraph(s.stages, spots[m])
    ensures var st := s.stages[spots[m].stage];
      ActiveCount(t.children) > Min(requested, 10) || ActiveIn(t.children, st.id) > st.concurrencyLimit
  {
    hide ActiveCount, ActiveIn;
    SeatedAlike(s, t, spots, u, others, firstId, m);
    OneMoreActive(s, t, spots, firstId, m);
    if FleetFull(u, requested, others, spots[m]) {
      assert m < |others| ==> Before(others[m], spots[m]);
      assert u.children[..|u.children|] == u.children;
    } else {
      FullBefore(s, u, others, firstId, m, spots[m]);
    }
  }

  /** If two answers agree on `m` leases and one takes a further pair, the other's next is not after it. */
  lemma NoneOverlooked(
    s: Fleet, requested: nat, now: nat, firstId: Id,
    t: Fleet, spots: seq<Spot>, u: Fleet, others: seq<Spot>, m: nat)
    requires DistinctStages(s.stages)
    requires ClaimAnswer(s, t, requested, now, firstId, spots) && ClaimAnswer(s, u, requested, now, firstId, others)
    requires m < |spots| && m <= |others| && spots[..m] == others[..m]
    ensures m < |others| && !Before(spots[m], others[m])
  {
    hide Due, ActiveCount, ActiveIn, FleetFull, StageFull, Seated, StagesFollow;
    var p := spots[m];
    assert forall n :: 0 <= n < m ==> others[n] == others[..m][n] == spots[n] != p;
    if m == |others| || Before(p, others[m]) {
      forall n | m <= n < |others| ensures Before(p, others[n]) {
        assert n == m || Before(others[m], others[n]);
      }
      NextOverfills(s, requested, firstId, t, spots, u, others, m);
    }
  }

  lemma {:induction false} SameLeases(
    s: Fleet, requested: nat, now: nat, firstId: Id,
    t: Fleet, spots: seq<Spot>, u: Fleet, others: seq<Spot>, m: nat)
    requires DistinctStages(s.stages) && m <= |spots|
    requires ClaimAnswer(s, t, requested, now, firstId, spots) && ClaimAnswer(s, u, requested, now, firstId, others)
    ensures m <= |others| && spots[..m] == others[..m]
  {
    hide ClaimAnswer;
    if m > 0 {
      SameLeases(s, requested, now, firstId, t, spots, u, others, m - 1);
      NoneOverlooked(s, requested, now, firstId, t, spots, u, others, m - 1);
      NoneOverlooked(s, requested, now, firstId, u, others, t, spots, m - 1);
      assert spots[m - 1] == others[m - 1];
      assert spots[..m] == spots[..m - 1] + [spots[m - 1]];
      assert others[..m] == others[..m - 1] + [others[m - 1]];
    }
  }

  lemma OneAnswer(
    s: Fleet, requested: nat, now: nat, firstId: Id, t: Fleet, spots: seq<Spot>, u: Fleet, others: seq<Spot>)
    requires DistinctStages(s.stages)
    requires ClaimAnswer(s, t, requested, now, firstId, spots) && ClaimAnswer(s, u, requested, now, firstId, others)
    ensures t == u && spots == others
  {
    hide Due, Greedy;
    SameLeases(s, requested, now, firstId, t, spots, u, others, |spots|);
    SameLeases(s, requested, now, firstId, u, others, t, spots, |others|);
    assert spots == others;
    SeatedAlike(s, t, spots, u, others, firstId, |spots|);
    assert t.children == t.children[..|s.children| + |spots|] && u.children == u.children[..|s.children| + |spots|];
    assert t.stages == u.stages;
  }

  /** The scheduler's claim is the one answer to the demands above, and meets them on every reachable run. */
  lemma ClaimIsTheAnswer(s: Fleet, t: Fleet, requested: nat, now: nat, firstId: Id)
    requires Inv(s) && s.state in {RunState.Approved, RunState.Executing} && IdsBelow(s.children, firstId)
    ensures GraphOk(s)
    ensures t == Claimed(s, requested, now, firstId) <==>
      exists spots :: ClaimAnswer(s, t, requested, now, firstId, spots)
  {
    hide Inv, ClaimAnswer, Claimed, ClaimSpots, IdsBelow;
    InvGraph(s);
    GraphIsDistinct(s);
    ClaimAnswers(s, requested, now, firstId);
    if spots :| ClaimAnswer(s, t, requested, now, firstId, spots) {
      OneAnswer(s, requested, now, firstId, t, spots, Claimed(s, requested, now, firstId), ClaimSpots(s, requested));
    }
  }

  lemma SeatAt(s: Fleet, t: Fleet, spots: seq<Spot>, firstId: Id, n: nat)
    requires Seated(s, t, spots, firstId) && n < |spots|
    ensures InGraph(s.stages, spots[n])
    ensures var st, c := s.stages[spots[n].stage], t.children[|s.children| + n];
      Of(c, st.id, st.targetIds[spots[n].target]) && c.state == StageState.Running
  {
  }

  /** A target whose children are all blocked after a claim was due before it, and was not taken. */
  lemma LeftWasDue(s: Fleet, t: Fleet, spots: seq<Spot>, firstId: Id, k: nat, j: nat)
    requires GraphOk(s) && Seated(s, t, spots, firstId)
    requires k < |s.stages| && j < |s.stages[k].targetIds|
    requires s.stages[k].state in {StageState.Pending, StageState.Running}
    requires forall m :: 0 <= m < |s.stages| && s.stages[m].id in s.stages[k].dependsOn ==>
      s.stages[m].state == StageState.Succeeded
    requires forall i :: 0 <= i < |t.children| && Of(t.children[i], s.stages[k].id, s.stages[k].targetIds[j]) ==>
      t.children[i].state == StageState.Blocked
    requires s.stages[k].strategy == Canary && j != 0 ==>
      HasSucceeded(t.children, s.stages[k].id, s.stages[k].targetIds[0])
    ensures Due(s, Spot(k, j)) && Spot(k, j) !in spots
  {
    hide TargetsValid, Acyclic, PairCount;
    var st := s.stages[k];
    assert StageValid(s.targets, s.stages, st);
    forall i | 0 <= i < |s.children| ensures t.children[i] == s.children[i] {
      assert t.children[..|s.children|][i] == s.children[i];
    }
    forall n | 0 <= n < |spots|
      ensures spots[n] != Spot(k, j) && t.children[|s.children| + n].state == StageState.Running
    {
      SeatAt(s, t, spots, firstId, n);
    }
    if st.strategy == Canary && j != 0 {
      var i :| 0 <= i < |t.children| && Of(t.children[i], st.id, st.targetIds[0])
        && t.children[i].state == StageState.Succeeded;
      if i >= |s.children| {
        SeatAt(s, t, spots, firstId, i - |s.children|);
      }
    }
  }

  /**
   After a claim every target that could still be leased finds all slots taken, or all of its stage, or
   waits for the first target of its canary stage; and a claim that leased anything stayed within the slots.
   */
  lemma ClaimIsMaximal(s: Fleet, requested: nat, now: nat, firstId: Id, k: nat, j: nat)
    requires Inv(s) && s.state in {RunState.Approved, RunState.Executing} && IdsBelow(s.children, firstId)
    requires k < |s.stages| && j < |s.stages[k].targetIds|
    requires s.stages[k].state in {StageState.Pending, StageState.Running}
    requires forall m :: 0 <= m < |s.stages| && s.stages[m].id in s.stages[k].dependsOn ==>
      s.stages[m].state == StageState.Succeeded
    ensures GraphOk(s)
    ensures
      var t, st := Claimed(s, requested, now, firstId), s.stages[k];
      && (|t.children| > |s.children| ==> ActiveCount(t.children) <= Min(requested, 10))
      && ((forall i :: 0 <= i < |t.children| && Of(t.children[i], st.id, st.targetIds[j]) ==>
             t.children[i].state == StageState.Blocked) ==>
           || ActiveCount(t.children) >= Min(requested, 10)
           || ActiveIn(t.children, st.id) >= st.concurrencyLimit
           || (st.strategy == Canary && j != 0 && !HasSucceeded(t.children, st.id, st.targetIds[0])))
  {
    hide ActiveCount, ActiveIn, ClaimSpots, Claimed, IdsBelow, Inv, GraphValid, Due, HasSucceeded, PairCount;
    InvGraph(s);
    ClaimAnswers(s, requested, now, firstId);
    var t, st := Claimed(s, requested, now, firstId), s.stages[k];
    if forall i :: 0 <= i < |t.children| && Of(t.children[i], st.id, st.targetIds[j]) ==>
         t.children[i].state == StageState.Blocked
    {
      if st.strategy != Canary || j == 0 || HasSucceeded(t.children, st.id, st.targetIds[0]) {
        LeftWasDue(s, t, ClaimSpots(s, requested), firstId, k, j);
      }
    }
  }
}
