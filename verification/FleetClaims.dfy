/** What a scheduling plan guarantees: sound, exhaustive, within its limits, and never empty without need. */
module FleetClaims {
  import opened Basics
  import opened FleetModel
  import opened FleetSchedule
  import opened FleetInvariants

  // ---- One stage -------------------------------------------------------------------------

  /** Target `t` may be leased now: nobody holds it or has settled it, and its canary has passed. */
  ghost predicate Grantable(children: seq<Child>, st: Stage, t: Id) {
    && st.targetIds != []
    && t in st.targetIds
    && Open(children, st.id, t)
    && (st.strategy == Canary && t != st.targetIds[0] ==> CanaryPassed(children, st))
  }

  /** Before the scan reaches `j` without a lease, a canary that starts afresh has nothing behind it. */
  ghost predicate FirstSkipped(children: seq<Child>, st: Stage, j: nat)
    requires st.targetIds != []
  {
    j > 0 && st.strategy == Canary && !CanaryPassed(children, st) ==> HasChild(children, st.id)
  }

  /** The picks come from position `j` on, each grantable, none twice. */
  ghost predicate PicksOk(children: seq<Child>, st: Stage, j: nat, picks: seq<Id>)
    requires j <= |st.targetIds|
  {
    && (forall n :: 0 <= n < |picks| ==> Grantable(children, st, picks[n]))
    && (forall n :: 0 <= n < |picks| ==> picks[n] in st.targetIds[j..])
    && Distinct(picks)
  }

  lemma PicksOkLater(children: seq<Child>, st: Stage, j: nat, picks: seq<Id>)
    requires j < |st.targetIds| && PicksOk(children, st, j + 1, picks)
    ensures PicksOk(children, st, j, picks)
  {
  }

  lemma PicksOkCons(children: seq<Child>, st: Stage, j: nat, picks: seq<Id>)
    requires j < |st.targetIds| && Distinct(st.targetIds) && PicksOk(children, st, j + 1, picks)
    requires Grantable(children, st, st.targetIds[j])
    ensures PicksOk(children, st, j, [st.targetIds[j]] + picks)
  {
  }

  lemma {:induction false} PicksGrantable(children: seq<Child>, st: Stage, j: nat, available: nat)
    requires st.targetIds != [] && j <= |st.targetIds| && Distinct(st.targetIds)
    requires FirstSkipped(children, st, j)
    ensures PicksOk(children, st, j, PickTargets(children, st, j, available))
    decreases |st.targetIds| - j
  {
    if available != 0 && j != |st.targetIds| {
      var t := st.targetIds[j];
      if !Open(children, st.id, t) || (st.strategy == Canary && t != st.targetIds[0] && !CanaryReady(children, st)) {
        PicksGrantable(children, st, j + 1, available);
        PicksOkLater(children, st, j, PickTargets(children, st, j + 1, available));
      } else {
        assert Grantable(children, st, t);
        if st.strategy == Canary && !CanaryPassed(children, st) {
          PicksOkCons(children, st, j, []);
        } else {
          PicksGrantable(children, st, j + 1, available - 1);
          PicksOkCons(children, st, j, PickTargets(children, st, j + 1, available - 1));
        }
      }
    }
  }

  /** With a slot to spare the scan leaves no grantable target behind, up to the canary's one. */
  lemma {:induction false} PicksExhaustive(children: seq<Child>, st: Stage, j: nat, available: nat, t: Id)
    requires st.targetIds != [] && j <= |st.targetIds|
    requires t in st.targetIds[j..] && Grantable(children, st, t)
    requires |PickTargets(children, st, j, available)| < available
    ensures t in PickTargets(children, st, j, available)
      || (st.strategy == Canary && !CanaryPassed(children, st) && PickTargets(children, st, j, available) != [])
    decreases |st.targetIds| - j
  {
    var u := st.targetIds[j];
    assert st.targetIds[j..] == [u] + st.targetIds[j + 1..];
    if !Open(children, st.id, u) {
      PicksExhaustive(children, st, j + 1, available, t);
    } else if st.strategy == Canary && u != st.targetIds[0] && !CanaryReady(children, st) {
      PicksExhaustive(children, st, j + 1, available, t);
    } else if st.strategy == Canary && !CanaryPassed(children, st) {
    } else if u != t {
      PicksExhaustive(children, st, j + 1, available - 1, t);
    }
  }

  // ---- The whole plan --------------------------------------------------------------------

  ghost predicate TargetsDistinct(stages: seq<Stage>) {
    forall k :: 0 <= k < |stages| ==> Distinct(stages[k].targetIds)
  }

  /** Every pick of the plan is of a ready stage and a grantable target, and no pick repeats. */
  ghost predicate PlanSound(stages: seq<Stage>, children: seq<Child>, plan: seq<Pick>) {
    && StagesWithin(plan, 0, |stages|)
    && (forall n :: 0 <= n < |plan| ==>
         && CanStart(stages, stages[plan[n].stage])
         && Grantable(children, stages[plan[n].stage], plan[n].targetId))
    && Distinct(plan)
  }

  lemma EmptyPlanSound(stages: seq<Stage>, children: seq<Child>)
    ensures PlanSound(stages, children, [])
  {
  }

  lemma PlanStep(stages: seq<Stage>, children: seq<Child>, k: nat, capacity: nat)
    requires k < |stages| && Targeted(stages)
    ensures var here := StagePicks(stages, children, k, capacity);
      Plan(stages, children, k, capacity) == Tagged(k, here) + Plan(stages, children, k + 1, capacity - |here|)
  {
  }

  lemma StagePicksSound(stages: seq<Stage>, children: seq<Child>, k: nat, capacity: nat)
    requires k < |stages| && Targeted(stages) && TargetsDistinct(stages)
    ensures PlanSound(stages, children, Tagged(k, StagePicks(stages, children, k, capacity)))
  {
    if capacity != 0 && CanStart(stages, stages[k]) {
      PicksGrantable(children, stages[k], 0, StageRoom(children, stages[k], capacity));
    }
  }

  lemma SoundConcat(stages: seq<Stage>, children: seq<Child>, a: seq<Pick>, b: seq<Pick>, k: nat)
    requires PlanSound(stages, children, a) && PlanSound(stages, children, b)
    requires k < |stages| && StagesWithin(a, k, k + 1) && StagesWithin(b, k + 1, |stages|)
    ensures PlanSound(stages, children, a + b)
  {
  }

  lemma {:induction false} PlanIsSound(stages: seq<Stage>, children: seq<Child>, k: nat, capacity: nat)
    requires k <= |stages| && Targeted(stages) && TargetsDistinct(stages)
    ensures PlanSound(stages, children, Plan(stages, children, k, capacity))
    decreases |stages| - k
  {
    hide PlanSound, StagePicks;
    if k == |stages| {
      EmptyPlanSound(stages, children);
    } else {
      var here := StagePicks(stages, children, k, capacity);
      PlanStep(stages, children, k, capacity);
      StagePicksSound(stages, children, k, capacity);
      PlanIsSound(stages, children, k + 1, capacity - |here|);
      SoundConcat(stages, children, Tagged(k, here), Plan(stages, children, k + 1, capacity - |here|), k);
    }
  }

  function PickCount(plan: seq<Pick>, k: nat): (n: nat) {
    if plan == [] then 0
    else
      var last := |plan| - 1;
      PickCount(plan[..last], k) + if plan[last].stage == k then 1 else 0
  }

  lemma {:induction false} PickCountAppend(a: seq<Pick>, b: seq<Pick>, k: nat)
    ensures PickCount(a + b, k) == PickCount(a, k) + PickCount(b, k)
  {
    if b == [] {
      assert a + b == a;
    } else {
      assert (a + b)[..|a + b| - 1] == a + b[..|b| - 1];
      PickCountAppend(a, b[..|b| - 1], k);
    }
  }

  lemma {:induction false} PickCountOne(plan: seq<Pick>, k: nat, i: nat)
    requires forall n :: 0 <= n < |plan| ==> plan[n].stage == i
    ensures PickCount(plan, k) == if i == k then |plan| else 0
  {
    if plan != [] {
      PickCountOne(plan[..|plan| - 1], k, i);
    }
  }

  lemma {:induction false} PickCountZero(plan: seq<Pick>, k: nat)
    requires forall n :: 0 <= n < |plan| ==> plan[n].stage != k
    ensures PickCount(plan, k) == 0
  {
    if plan != [] {
      PickCountZero(plan[..|plan| - 1], k);
    }
  }

  lemma StagePicksRespectRoom(stages: seq<Stage>, children: seq<Child>, k: nat, capacity: nat)
    requires k < |stages| && stages[k].targetIds != []
    ensures |StagePicks(stages, children, k, capacity)|
         <= Minus(stages[k].concurrencyLimit, ActiveIn(children, stages[k].id))
  {
  }

  /** No stage takes more than the room it has. */
  lemma {:induction false} PlanRespectsRoom(stages: seq<Stage>, children: seq<Child>, k: nat, capacity: nat, i: nat)
    requires k <= |stages| && i < |stages| && Targeted(stages)
    ensures PickCount(Plan(stages, children, k, capacity), i)
         <= Minus(stages[i].concurrencyLimit, ActiveIn(children, stages[i].id))
    decreases |stages| - k
  {
    hide StagePicks, ActiveIn, PickCount, Minus;
    var plan := Plan(stages, children, k, capacity);
    if i < k {
      PickCountZero(plan, i);
    } else if k < |stages| {
      var here := StagePicks(stages, children, k, capacity);
      var tagged := Tagged(k, here);
      var rest := Plan(stages, children, k + 1, capacity - |here|);
      assert PickCount(plan, i) == PickCount(tagged, i) + PickCount(rest, i) by {
        PlanStep(stages, children, k, capacity);
        PickCountAppend(tagged, rest, i);
      }
      PickCountOne(tagged, i, k);
      if i == k {
        PickCountZero(rest, i);
        StagePicksRespectRoom(stages, children, k, capacity);
      } else {
        PlanRespectsRoom(stages, children, k + 1, capacity - |here|, i);
      }
    }
  }

  /** A pair that could be leased: its stage is ready and has a free slot of its own. */
  ghost predicate Claimable(stages: seq<Stage>, children: seq<Child>, k: nat, t: Id) {
    && k < |stages|
    && CanStart(stages, stages[k])
    && ActiveIn(children, stages[k].id) < stages[k].concurrencyLimit
    && (stages[k].strategy == Sequential ==> ActiveIn(children, stages[k].id) == 0)
    && Grantable(children, stages[k], t)
  }

  /** A plan with slots to spare takes something from every stage that has a claimable pair. */
  lemma {:induction false} PlanMakesProgress(
    stages: seq<Stage>, children: seq<Child>, k: nat, capacity: nat, i: nat, t: Id)
    requires k <= i < |stages| && Targeted(stages)
    requires Claimable(stages, children, i, t)
    requires capacity > 0
    ensures Plan(stages, children, k, capacity) != []
    decreases |stages| - k
  {
    var here := StagePicks(stages, children, k, capacity);
    if k < i {
      if here == [] {
        PlanMakesProgress(stages, children, k + 1, capacity, i, t);
      }
    } else {
      var room := StageRoom(children, stages[k], capacity);
      if |here| < room {
        PicksExhaustive(children, stages[k], 0, room, t);
      }
    }
    assert |Tagged(k, here)| == |here|;
  }

  // ---- The leased children ---------------------------------------------------------------

  lemma {:induction false} StageCountIsPickCount(
    stages: seq<Stage>, children: seq<Child>, plan: seq<Pick>, firstId: Id, k: nat)
    requires DistinctStages(stages) && k < |stages|
    requires StagesWithin(plan, 0, |stages|)
    ensures StageCount(ChildrenOf(stages, children, plan, firstId), stages[k].id) == PickCount(plan, k)
  {
    if plan != [] {
      var front := plan[..|plan| - 1];
      var born := ChildrenOf(stages, children, plan, firstId);
      assert born[..|born| - 1] == ChildrenOf(stages, children, front, firstId);
      StageCountIsPickCount(stages, children, front, firstId, k);
    }
  }

  /** Different picks make children of different pairs. */
  lemma NewPairsDiffer(stages: seq<Stage>, children: seq<Child>, plan: seq<Pick>, firstId: Id)
    requires DistinctStages(stages) && PlanSound(stages, children, plan)
    ensures forall m, n :: 0 <= m < n < |plan| ==>
      !SamePair(ChildrenOf(stages, children, plan, firstId)[m], ChildrenOf(stages, children, plan, firstId)[n])
  {
  }
}
