/** Kahn's algorithm over the dependencies of a plan. */
module FleetGraph {
  import opened Basics
  import opened FleetModel

  // ---- Kahn's algorithm ----------------------------------------------------------------------

  ghost predicate DependenciesKnown(stages: seq<Stage>) {
    forall k, d :: 0 <= k < |stages| && d in stages[k].dependsOn ==> HasStage(stages, d)
  }

  ghost function StageIds(stages: seq<Stage>): (ids: set<Id>) {
    set k | 0 <= k < |stages| :: stages[k].id
  }

  /** `order` lists stages once each, every one after all it depends on. */
  ghost predicate Topological(stages: seq<Stage>, order: seq<Id>) {
    && Distinct(order)
    && (forall n :: 0 <= n < |order| ==> HasStage(stages, order[n]))
    && (forall n, k, d | 0 <= n < |order| && 0 <= k < |stages| && stages[k].id == order[n]
         && d in stages[k].dependsOn :: d in order[..n])
  }

  /** How many entries of `deps` lie outside `done`. */
  ghost function Waiting(deps: seq<Id>, done: seq<Id>): (n: nat) {
    if deps == [] then 0
    else
      var last := |deps| - 1;
      Waiting(deps[..last], done) + if deps[last] in done then 0 else 1
  }

  lemma {:induction false} WaitingAfter(deps: seq<Id>, done: seq<Id>, id: Id)
    requires id !in done
    ensures Waiting(deps, done) == Waiting(deps, done + [id]) + multiset(deps)[id]
  {
    if deps != [] {
      var last := |deps| - 1;
      WaitingAfter(deps[..last], done, id);
      assert deps == deps[..last] + [deps[last]];
    }
  }

  lemma {:induction false} NothingDone(deps: seq<Id>)
    ensures Waiting(deps, []) == |deps|
  {
    if deps != [] {
      NothingDone(deps[..|deps| - 1]);
    }
  }

  lemma {:induction false} NoneWaiting(deps: seq<Id>, done: seq<Id>)
    ensures Waiting(deps, done) == 0 <==> forall d :: d in deps ==> d in done
  {
    if deps != [] {
      var last := |deps| - 1;
      NoneWaiting(deps[..last], done);
      assert deps == deps[..last] + [deps[last]];
    }
  }

  lemma {:induction false} StageIdsCount(stages: seq<Stage>)
    requires DistinctStages(stages)
    ensures |StageIds(stages)| == |stages|
  {
    if stages != [] {
      var last := |stages| - 1;
      StageIdsCount(stages[..last]);
      assert StageIds(stages) == StageIds(stages[..last]) + {stages[last].id};
    }
  }

  lemma TopologicalFits(stages: seq<Stage>, order: seq<Id>)
    requires DistinctStages(stages) && Topological(stages, order)
    ensures |order| <= |stages|
    ensures |order| == |stages| ==> forall k :: 0 <= k < |stages| ==> stages[k].id in order
  {
    StageIdsCount(stages);
    forall x | x in order ensures x in StageIds(stages) {
      var k :| 0 <= k < |stages| && stages[k].id == x;
    }
    DistinctFits(order, StageIds(stages));
    if |order| == |stages| {
      forall k | 0 <= k < |stages| ensures stages[k].id in order {
        assert stages[k].id in StageIds(stages);
      }
    }
  }

  ghost function IndexOf(order: seq<Id>, x: Id): (n: nat)
    requires x in order
    ensures n < |order| && order[n] == x
  {
    if order[0] == x then 0 else 1 + IndexOf(order[1..], x)
  }

  /** A topological order of all stages is a rank. */
  lemma TopologicalIsAcyclic(stages: seq<Stage>, order: seq<Id>)
    requires Topological(stages, order)
    requires forall k :: 0 <= k < |stages| ==> stages[k].id in order
    ensures DependenciesKnown(stages) && Acyclic(stages)
  {
    var rank := map x | x in order :: IndexOf(order, x);
    forall k, d | 0 <= k < |stages| && d in stages[k].dependsOn
      ensures HasStage(stages, d) && d in rank && rank[d] < rank[stages[k].id]
    {
      var n := IndexOf(order, stages[k].id);
      assert d in order[..n];
      var m :| 0 <= m < n && order[m] == d;
      assert order[IndexOf(order, d)] == order[m];
    }
    assert Ranked(stages, rank);
  }

  /** A stage left out of a stuck order starts an endless descent through the ranks. */
  lemma {:induction false} StuckMeansCycle(stages: seq<Stage>, order: seq<Id>, rank: map<Id, nat>, k: nat)
    requires DependenciesKnown(stages) && Ranked(stages, rank)
    requires k < |stages| && stages[k].id !in order
    requires forall i :: 0 <= i < |stages| && stages[i].id !in order ==>
      exists d :: d in stages[i].dependsOn && d !in order
    ensures false
    decreases if stages[k].id in rank then rank[stages[k].id] else 0
  {
    var d :| d in stages[k].dependsOn && d !in order;
    assert HasStage(stages, d);
    var j :| 0 <= j < |stages| && stages[j].id == d;
    assert rank[d] < rank[stages[k].id];
    StuckMeansCycle(stages, order, rank, j);
  }

  ghost function Listed(dependants: map<Id, seq<Id>>, d: Id): (ids: seq<Id>) {
    if d in dependants then dependants[d] else []
  }

  /** Stage `k` is listed under `d` as often as it names `d`. */
  ghost predicate ListsDependants(stages: seq<Stage>, dependants: map<Id, seq<Id>>) {
    && (forall k, d :: 0 <= k < |stages| ==>
         multiset(Listed(dependants, d))[stages[k].id] == multiset(stages[k].dependsOn)[d])
    && (forall d, x :: x in Listed(dependants, d) ==> HasStage(stages, x))
  }

  /** `ListsDependants` for the stages before `i` and the first `j` entries of stage `i`. */
  ghost predicate ListedUpTo(stages: seq<Stage>, dependants: map<Id, seq<Id>>, i: nat, j: nat)
    requires i < |stages| ==> j <= |stages[i].dependsOn|
  {
    && (forall k, d :: 0 <= k < |stages| ==>
         multiset(Listed(dependants, d))[stages[k].id] ==
           if k < i then multiset(stages[k].dependsOn)[d]
           else if k == i then multiset(stages[i].dependsOn[..j])[d] else 0)
    && (forall d, x :: x in Listed(dependants, d) ==> HasStage(stages, x))
  }

  lemma ListOneAt(
    stages: seq<Stage>, dependants: map<Id, seq<Id>>, more: map<Id, seq<Id>>, i: nat, j: nat, k: nat, d: Id)
    requires DistinctStages(stages) && i < |stages| && j < |stages[i].dependsOn| && k < |stages|
    requires more == dependants[stages[i].dependsOn[j] :=
                                Listed(dependants, stages[i].dependsOn[j]) + [stages[i].id]]
    requires multiset(Listed(dependants, d))[stages[k].id] ==
      if k < i then multiset(stages[k].dependsOn)[d]
      else if k == i then multiset(stages[i].dependsOn[..j])[d] else 0
    ensures multiset(Listed(more, d))[stages[k].id] ==
      if k < i then multiset(stages[k].dependsOn)[d]
      else if k == i then multiset(stages[i].dependsOn[..j + 1])[d] else 0
  {
    var deps := stages[i].dependsOn;
    assert deps[..j + 1] == deps[..j] + [deps[j]];
  }

  lemma ListOne(stages: seq<Stage>, dependants: map<Id, seq<Id>>, i: nat, j: nat)
    requires DistinctStages(stages) && i < |stages| && j < |stages[i].dependsOn|
    requires ListedUpTo(stages, dependants, i, j)
    ensures var d := stages[i].dependsOn[j];
      ListedUpTo(stages, dependants[d := Listed(dependants, d) + [stages[i].id]], i, j + 1)
  {
    hide HasStage, Listed;
    var y := stages[i].dependsOn[j];
    var more := dependants[y := Listed(dependants, y) + [stages[i].id]];
    forall k, d | 0 <= k < |stages|
      ensures multiset(Listed(more, d))[stages[k].id] ==
        if k < i then multiset(stages[k].dependsOn)[d]
        else if k == i then multiset(stages[i].dependsOn[..j + 1])[d] else 0
    {
      ListOneAt(stages, dependants, more, i, j, k, d);
    }
    forall d, x | x in Listed(more, d) ensures HasStage(stages, x) {
      OneMore(dependants, y, stages[i].id, d, x);
      ThisStage(stages, i);
    }
  }

  lemma OneMore(dependants: map<Id, seq<Id>>, y: Id, id: Id, d: Id, x: Id)
    requires x in Listed(dependants[y := Listed(dependants, y) + [id]], d)
    ensures x in Listed(dependants, d) || x == id
  {
  }

  lemma ThisStage(stages: seq<Stage>, i: nat)
    requires i < |stages|
    ensures HasStage(stages, stages[i].id)
  {
  }

  lemma NextStage(stages: seq<Stage>, dependants: map<Id, seq<Id>>, i: nat)
    requires i < |stages| && ListedUpTo(stages, dependants, i, |stages[i].dependsOn|)
    ensures ListedUpTo(stages, dependants, i + 1, 0)
  {
    hide HasStage;
    var deps := stages[i].dependsOn;
    assert deps[..|deps|] == deps;
  }

  method CollectDependants(stages: seq<Stage>) returns (dependants: map<Id, seq<Id>>)
    requires DistinctStages(stages)
    ensures ListsDependants(stages, dependants)
  {
    hide ListedUpTo, HasStage;
    dependants := map[];
    NothingListed(stages);
    for i := 0 to |stages|
      invariant ListedUpTo(stages, dependants, i, 0)
    {
      var deps := stages[i].dependsOn;
      for j := 0 to |deps|
        invariant ListedUpTo(stages, dependants, i, j)
      {
        var before := if deps[j] in dependants then dependants[deps[j]] else [];
        ListOne(stages, dependants, i, j);
        dependants := dependants[deps[j] := before + [stages[i].id]];
      }
      NextStage(stages, dependants, i);
    }
    AllListed(stages, dependants);
  }

  lemma NothingListed(stages: seq<Stage>)
    ensures ListedUpTo(stages, map[], 0, 0)
  {
  }

  lemma AllListed(stages: seq<Stage>, dependants: map<Id, seq<Id>>)
    requires ListedUpTo(stages, dependants, |stages|, 0)
    ensures ListsDependants(stages, dependants)
  {
  }

  /** The counters of one moment: what is waited for, minus what is still to be told. */
  ghost predicate Counted(stages: seq<Stage>, incoming: map<Id, nat>, done: seq<Id>, untold: seq<Id>) {
    && incoming.Keys == StageIds(stages)
    && forall k :: 0 <= k < |stages| ==>
         stages[k].id in incoming
         && incoming[stages[k].id] == Waiting(stages[k].dependsOn, done) + multiset(untold)[stages[k].id]
  }

  /** A stage is queued or done exactly when its counter is zero, and never both or twice. */
  ghost predicate Queued(incoming: map<Id, nat>, done: seq<Id>, ready: seq<Id>) {
    && Distinct(done + ready)
    && forall x :: x in done + ready <==> x in incoming && incoming[x] == 0
  }

  method StartingStages(incoming: map<Id, nat>) returns (ready: seq<Id>)
    ensures Distinct(ready)
    ensures forall x :: x in ready <==> x in incoming && incoming[x] == 0
  {
    ready := [];
    var left := incoming.Keys;
    while left != {}
      invariant left <= incoming.Keys
      invariant Distinct(ready)
      invariant forall x :: x in ready <==> x in incoming.Keys - left && incoming[x] == 0
    {
      var id :| id in left;
      left := left - {id};
      if incoming[id] == 0 {
        ready := ready + [id];
      }
    }
  }

  method CountIncoming(stages: seq<Stage>) returns (incoming: map<Id, nat>)
    requires DistinctStages(stages)
    ensures Counted(stages, incoming, [], [])
  {
    incoming := map[];
    for i := 0 to |stages|
      invariant incoming.Keys == StageIds(stages[..i])
      invariant forall k :: 0 <= k < i ==>
        stages[k].id in incoming && incoming[stages[k].id] == |stages[k].dependsOn|
    {
      incoming := incoming[stages[i].id := |stages[i].dependsOn|];
      assert StageIds(stages[..i + 1]) == StageIds(stages[..i]) + {stages[i].id};
    }
    assert stages[..|stages|] == stages;
    forall k | 0 <= k < |stages|
      ensures incoming[stages[k].id] == Waiting(stages[k].dependsOn, []) + multiset([])[stages[k].id]
    {
      NothingDone(stages[k].dependsOn);
    }
  }

  lemma PopKeepsCount(
    stages: seq<Stage>, incoming: map<Id, nat>, dependants: map<Id, seq<Id>>, done: seq<Id>, id: Id)
    requires Counted(stages, incoming, done, []) && ListsDependants(stages, dependants) && id !in done
    ensures Counted(stages, incoming, done + [id], Listed(dependants, id))
  {
    forall k | 0 <= k < |stages|
      ensures incoming[stages[k].id] ==
        Waiting(stages[k].dependsOn, done + [id]) + multiset(Listed(dependants, id))[stages[k].id]
    {
      WaitingAfter(stages[k].dependsOn, done, id);
    }
  }

  lemma PopKeepsQueue(incoming: map<Id, nat>, done: seq<Id>, ready: seq<Id>)
    requires Queued(incoming, done, ready) && ready != []
    ensures ready[0] !in done && ready[0] in incoming && incoming[ready[0]] == 0
    ensures Queued(incoming, done + [ready[0]], ready[1..])
  {
    var all := done + ready;
    assert all == done + [ready[0]] + ready[1..];
    assert all[|done|] == ready[0] && ready[0] in all;
    assert forall n :: 0 <= n < |done| ==> all[n] == done[n];
  }

  lemma TopologicalExtends(stages: seq<Stage>, done: seq<Id>, id: Id)
    requires Topological(stages, done) && id !in done && HasStage(stages, id)
    requires forall k, d | 0 <= k < |stages| && stages[k].id == id && d in stages[k].dependsOn :: d in done
    ensures Topological(stages, done + [id])
  {
    var longer := done + [id];
    forall n, k, d | 0 <= n < |longer| && 0 <= k < |stages| && stages[k].id == longer[n] && d in stages[k].dependsOn
      ensures d in longer[..n]
    {
      assert longer[..n] == done[..n];
    }
  }

  lemma PopKeepsTopology(stages: seq<Stage>, incoming: map<Id, nat>, done: seq<Id>, ready: seq<Id>)
    requires Counted(stages, incoming, done, []) && Queued(incoming, done, ready) && ready != []
    requires Topological(stages, done)
    ensures ready[0] !in done && Topological(stages, done + [ready[0]])
    ensures Queued(incoming, done + [ready[0]], ready[1..])
  {
    hide Topological, Queued, Waiting;
    var id := ready[0];
    PopKeepsQueue(incoming, done, ready);
    assert id in StageIds(stages);
    forall k, d | 0 <= k < |stages| && stages[k].id == id && d in stages[k].dependsOn ensures d in done {
      NoneWaiting(stages[k].dependsOn, done);
    }
    TopologicalExtends(stages, done, id);
  }

  /** Telling one dependant: its counter is positive, and drops by one. */
  lemma TellKeepsCount(stages: seq<Stage>, incoming: map<Id, nat>, done: seq<Id>, untold: seq<Id>)
    requires Counted(stages, incoming, done, untold)
    requires untold != [] && HasStage(stages, untold[0])
    ensures untold[0] in incoming && incoming[untold[0]] > 0
    ensures Counted(stages, incoming[untold[0] := incoming[untold[0]] - 1], done, untold[1..])
  {
    var x := untold[0];
    assert untold == [x] + untold[1..];
    var k :| 0 <= k < |stages| && stages[k].id == x;
    assert multiset(untold)[x] > 0;
  }

  /** A dependant is queued at the moment its counter reaches zero, so never twice. */
  lemma TellKeepsQueue(incoming: map<Id, nat>, done: seq<Id>, ready: seq<Id>, x: Id)
    requires Queued(incoming, done, ready) && x in incoming && incoming[x] > 0
    ensures var left := incoming[x] - 1;
      Queued(incoming[x := left], done, if left == 0 then ready + [x] else ready)
  {
    if incoming[x] == 1 {
      assert done + (ready + [x]) == (done + ready) + [x];
    }
  }

  /**
   Kahn's algorithm, for any order in which the start set is enumerated. It accepts exactly the
   graphs whose dependencies are known and strictly ranked; no counter ever drops below zero, and
   the stages it visits, in `order`, are never visited twice.
   */
  method ValidateAcyclic(stages: seq<Stage>) returns (r: Result<(), PlanError>, ghost order: seq<Id>)
    requires DistinctStages(stages)
    ensures r == Ok(()) || r == Err(DependencyCycle)
    ensures r.Ok? <==> DependenciesKnown(stages) && Acyclic(stages)
    ensures Topological(stages, order)
    ensures r.Ok? ==> forall k :: 0 <= k < |stages| ==> stages[k].id in order
  {
    hide Counted, Queued, Topological, DistinctStages, Acyclic, DependenciesKnown, HasStage;
    var incoming := CountIncoming(stages);
    var dependants := CollectDependants(stages);
    var ready := StartingStages(incoming);
    var visited := 0;
    order := [];
    StartQueued(stages, incoming, ready);
    while ready != []
      invariant Counted(stages, incoming, order, []) && Queued(incoming, order, ready)
      invariant Topological(stages, order) && visited == |order|
      decreases |stages| - |order|
    {
      var id := ready[0];
      PopKeepsTopology(stages, incoming, order, ready);
      PopKeepsCount(stages, incoming, dependants, order, id);
      TopologicalFits(stages, order + [id]);
      order := order + [id];
      ready := ready[1..];
      visited := visited + 1;
      var untold := if id in dependants then dependants[id] else [];
      while untold != []
        invariant Counted(stages, incoming, order, untold) && Queued(incoming, order, ready)
        invariant forall x :: x in untold ==> HasStage(stages, x)
      {
        var x := untold[0];
        TellKeepsCount(stages, incoming, order, untold);
        TellKeepsQueue(incoming, order, ready, x);
        incoming := incoming[x := incoming[x] - 1];
        if incoming[x] == 0 {
          ready := ready + [x];
        }
        untold := untold[1..];
      }
    }
    TopologicalFits(stages, order);
    if visited == |stages| {
      TopologicalIsAcyclic(stages, order);
      r := Ok(());
    } else {
      UnvisitedMeansCycle(stages, incoming, order);
      r := Err(DependencyCycle);
    }
  }

  lemma StartQueued(stages: seq<Stage>, incoming: map<Id, nat>, ready: seq<Id>)
    requires Distinct(ready) && forall x :: x in ready <==> x in incoming && incoming[x] == 0
    ensures Queued(incoming, [], ready) && Topological(stages, [])
  {
  }

  lemma UnvisitedMeansCycle(stages: seq<Stage>, incoming: map<Id, nat>, order: seq<Id>)
    requires DistinctStages(stages) && Counted(stages, incoming, order, []) && Queued(incoming, order, [])
    requires Topological(stages, order) && |order| < |stages|
    ensures !(DependenciesKnown(stages) && Acyclic(stages))
  {
    if DependenciesKnown(stages) && Acyclic(stages) {
      var rank :| Ranked(stages, rank);
      assert order + [] == order;
      forall i | 0 <= i < |stages| && stages[i].id !in order
        ensures exists d :: d in stages[i].dependsOn && d !in order
      {
        NoneWaiting(stages[i].dependsOn, order);
      }
      var k := Unvisited(stages, order);
      StuckMeansCycle(stages, order, rank, k);
    }
  }

  lemma Unvisited(stages: seq<Stage>, order: seq<Id>) returns (k: nat)
    requires DistinctStages(stages) && Distinct(order) && |order| < |stages|
    ensures k < |stages| && stages[k].id !in order
  {
    StageIdsCount(stages);
    DistinctCardinality(order);
    if StageIds(stages) <= Elements(order) {
      SubsetCardinality(StageIds(stages), Elements(order));
    }
    var x :| x in StageIds(stages) && x !in Elements(order);
    k :| 0 <= k < |stages| && stages[k].id == x;
  }
}
