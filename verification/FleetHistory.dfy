/**
 Whole histories of the approval protocol, from an empty database through any steps, failed writes and
 restarts: where the authority of a lease comes from, how approvals end, and what a restart leaves.
 */
module FleetHistory {
  import opened Basics
  import opened FleetModel
  import opened FleetSchedule
  import opened FleetInvariants
  import opened FleetClaimKeeps
  import opened FleetRuns
  import opened FleetProgress
  import opened FleetAuthority
  import FleetCompletion

  ghost predicate History(worlds: seq<World>, steps: seq<ServiceStep>) {
    && |worlds| == |steps| + 1
    && worlds[0] == World(map[], map[], map[], {}, [])
    && forall n :: 0 <= n < |steps| ==>
         LiveGraphs(worlds[n]) && Enabled(worlds[n], steps[n]) && worlds[n + 1] == Effect(worlds[n], steps[n])
  }

  lemma {:induction false} HistoryKeepsWorld(worlds: seq<World>, steps: seq<ServiceStep>, n: nat)
    requires History(worlds, steps) && n < |worlds|
    ensures WorldInv(worlds[n])
  {
    hide Enabled, Effect, LiveGraphs;
    if n > 0 {
      HistoryKeepsWorld(worlds, steps, n - 1);
      EffectKeepsWorld(worlds[n - 1], steps[n - 1]);
    }
  }

  // ---- Where leases come from ----------------------------------------------------------------

  /** Step `m` granted approval `a`, on a run awaiting approval with exactly the binding of `a`. */
  ghost predicate GrantedAt(worlds: seq<World>, steps: seq<ServiceStep>, m: nat, a: Approval)
    requires |worlds| == |steps| + 1
  {
    && m < |steps| && steps[m].Decide? && steps[m].grant && steps[m].durable
    && steps[m].copy.id == a.id && steps[m].fleetId == a.fleetRunId
    && steps[m].policyVersion == a.policyVersion && steps[m].policyHash == a.policyHash
    && a.fleetRunId in worlds[m].live
    && var run := worlds[m].live[a.fleetRunId];
       && run.state == RunState.AwaitingApproval && run.version == a.fleetVersion
       && run.graphDigest == a.graphDigest && run.targets == a.targets
  }

  ghost predicate Held(w: World, a: Approval) {
    a in w.copies || (a.id in w.approvals && w.approvals[a.id] == a)
  }

  /** A granted approval that a step brings into being was granted by that step. */
  lemma NewGrant(w: World, step: ServiceStep, a: Approval)
    requires WorldInv(w) && LiveGraphs(w) && Enabled(w, step)
    requires a.state == ApprovalState.Granted && Held(Effect(w, step), a) && !Held(w, a)
    ensures GrantedAt([w, Effect(w, step)], [step], 0, a)
  {
    hide Inv, Sealed, GraphValid, ClaimReady, NewLeases, Apply, RunAfterDecision, SameGraph;
    assert step.Decide?;
    assert SameBinding(step.copy, w.approvals[step.copy.id]);
  }

  lemma {:induction false} GrantOnRecord(worlds: seq<World>, steps: seq<ServiceStep>, n: nat, a: Approval)
    returns (m: nat)
    requires History(worlds, steps) && n < |worlds|
    requires a.state == ApprovalState.Granted && Held(worlds[n], a)
    ensures m < n && GrantedAt(worlds, steps, m, a)
  {
    hide Enabled, Effect, LiveGraphs, WorldInv;
    assert n > 0;
    if Held(worlds[n - 1], a) {
      m := GrantOnRecord(worlds, steps, n - 1, a);
    } else {
      HistoryKeepsWorld(worlds, steps, n - 1);
      NewGrant(worlds[n - 1], steps[n - 1], a);
      m := n - 1;
    }
  }

  /** The lease names a stage and a target of the run's graph. */
  ghost predicate Planned(run: Fleet, lease: Lease) {
    lease.target in run.targets && PairPlanned(run, lease.stageId, lease.target.profileId)
  }

  ghost predicate PairPlanned(run: Fleet, stageId: Id, targetId: Id) {
    exists k :: 0 <= k < |run.stages| && run.stages[k].id == stageId && targetId in run.stages[k].targetIds
  }

  /** Step `m` granted the approval the lease carries, for the graph, targets and policy it carries. */
  ghost predicate LeaseGrantedAt(worlds: seq<World>, steps: seq<ServiceStep>, m: nat, lease: Lease)
    requires |worlds| == |steps| + 1
  {
    && m < |steps| && steps[m].Decide? && steps[m].grant && steps[m].durable
    && steps[m].copy.id == lease.approvalId && steps[m].fleetId == lease.fleetRunId
    && steps[m].policyVersion == lease.policyVersion && steps[m].policyHash == lease.policyHash
    && lease.fleetRunId in worlds[m].live
    && var run := worlds[m].live[lease.fleetRunId];
       && run.state == RunState.AwaitingApproval && run.version == lease.fleetVersion
       && run.graphDigest == lease.graphDigest && Planned(run, lease)
  }

  lemma ChildPlanned(s: Fleet, t: Fleet, n: nat)
    requires Inv(t) && SameGraph(s.stages, t.stages) && s.targets == t.targets && n < |t.children|
    ensures t.children[n].agentRunId.Some? && HasTarget(s.targets, t.children[n].targetId)
    ensures PairPlanned(s, t.children[n].stageId, t.children[n].targetId)
  {
    hide DependenciesDone, ChildStatesOk, Owned, AttemptsOk, StagesOk, Bounded, CanaryFirst, RunStateOk,
      TargetsValid, Acyclic, HasTarget;
    var c := t.children[n];
    var k :| 0 <= k < |t.stages| && t.stages[k].id == c.stageId;
    assert StageValid(t.targets, t.stages, t.stages[k]);
    assert s.stages[k].(state := t.stages[k].state) == t.stages[k];
  }

  /** What a claim appends can always be leased: the target lookup never fails. */
  lemma ClaimFits(s: Fleet, copy: Approval, pv: nat, ph: string, requested: nat, now: nat, firstId: Id)
    requires Inv(s) && Sealed(s) && IdsBelow(s.children, firstId) && GraphOk(s)
    requires ClaimReady(s, copy, pv, ph, requested, now, firstId).Ok?
    ensures LeasesFit(s, ClaimReady(s, copy, pv, ph, requested, now, firstId).value)
  {
    hide Inv, Sealed, GraphValid, IdsBelow, HasTarget, ClaimReady, SameGraph, PairPlanned;
    var inner := ClaimStep(copy, pv, ph, requested, now, firstId);
    var t := Apply(s, inner).value;
    CoordinatorKeeps(s, inner);
    ClaimAppends(s, copy, pv, ph, requested, now, firstId);
    forall n | |s.children| <= n < |t.children|
      ensures t.children[n].agentRunId.Some? && HasTarget(s.targets, t.children[n].targetId)
    {
      ChildPlanned(s, t, n);
    }
  }

  lemma ClaimAppends(s: Fleet, copy: Approval, pv: nat, ph: string, requested: nat, now: nat, firstId: Id)
    requires GraphOk(s) && ClaimReady(s, copy, pv, ph, requested, now, firstId).Ok?
    ensures s.children <= ClaimReady(s, copy, pv, ph, requested, now, firstId).value.children
    ensures Authorized(s, copy, pv, ph, {RunState.Approved, RunState.Executing})
  {
  }

  /** What a step that issues a lease must have been. */
  lemma NewLease(w: World, step: ServiceStep, lease: Lease)
    requires WorldInv(w) && LiveGraphs(w) && Enabled(w, step)
    requires lease in Effect(w, step).issued && lease !in w.issued
    ensures step.ClaimChildren? && step.durable && step.fleetId == lease.fleetRunId && step.fleetId in w.live
    ensures step.copy.id == lease.approvalId && step.copy.state == ApprovalState.Granted && step.copy in w.copies
    ensures step.policyVersion == lease.policyVersion && step.policyHash == lease.policyHash
    ensures var s := w.live[step.fleetId];
      && Authorized(s, step.copy, step.policyVersion, step.policyHash, {RunState.Approved, RunState.Executing})
      && lease.fleetVersion == s.version && lease.graphDigest == s.graphDigest && Planned(s, lease)
  {
    hide Inv, Sealed, GraphValid, ClaimReady, Apply, RunAfterDecision, SameGraph, RowsOk, CopiesOk, DecisionsOk,
      HasTarget, IdsBelow, Decided;
    assert step.ClaimChildren?;
    var ClaimChildren(id, copy, pv, ph, requested, now, firstId, durable) := step;
    var s := w.live[id];
    NewLeaseOf(s, copy, pv, ph, requested, now, firstId, lease);
  }

  lemma NewLeaseOf(s: Fleet, copy: Approval, pv: nat, ph: string, requested: nat, now: nat, firstId: Id, lease: Lease)
    requires Inv(s) && Sealed(s) && IdsBelow(s.children, firstId) && GraphOk(s)
    requires ClaimReady(s, copy, pv, ph, requested, now, firstId).Ok?
    requires var t := ClaimReady(s, copy, pv, ph, requested, now, firstId).value;
      LeasesFit(s, t) && lease in NewLeases(s, t, copy, pv, ph)
    ensures Authorized(s, copy, pv, ph, {RunState.Approved, RunState.Executing}) && Planned(s, lease)
    ensures lease.fleetRunId == s.id && lease.approvalId == copy.id
    ensures lease.policyVersion == pv && lease.policyHash == ph
    ensures lease.fleetVersion == s.version && lease.graphDigest == s.graphDigest
  {
    hide Inv, Sealed, GraphValid, IdsBelow, HasTarget, ClaimReady, SameGraph, Authorized, PairPlanned;
    var inner := ClaimStep(copy, pv, ph, requested, now, firstId);
    var t := Apply(s, inner).value;
    CoordinatorKeeps(s, inner);
    ClaimAppends(s, copy, pv, ph, requested, now, firstId);
    var n :| 0 <= n < |NewLeases(s, t, copy, pv, ph)| && NewLeases(s, t, copy, pv, ph)[n] == lease;
    ChildPlanned(s, t, |s.children| + n);
    LeaseAt(s, t, copy, pv, ph, n);
  }

  lemma LeaseAt(s: Fleet, t: Fleet, copy: Approval, pv: nat, ph: string, n: nat)
    requires LeasesFit(s, t) && n < |t.children| - |s.children|
    ensures var c := t.children[|s.children| + n];
      var lease := NewLeases(s, t, copy, pv, ph)[n];
      && lease.stageId == c.stageId && lease.target.profileId == c.targetId && lease.target in s.targets
      && lease.fleetRunId == s.id && lease.approvalId == copy.id
      && lease.policyVersion == pv && lease.policyHash == ph
      && lease.fleetVersion == s.version && lease.graphDigest == s.graphDigest
  {
  }

  lemma SealedAlike(s: Fleet, t: Fleet, lease: Lease)
    requires Sealed(s) && Sealed(t) && s.graphDigest == t.graphDigest && Planned(s, lease)
    ensures Planned(t, lease)
  {
  }

  /** Every lease ever issued was authorised by a grant on the very graph it executes. */
  lemma {:induction false} EveryLeaseWasGranted(worlds: seq<World>, steps: seq<ServiceStep>, n: nat, lease: Lease)
    returns (m: nat)
    requires History(worlds, steps) && n < |worlds| && lease in worlds[n].issued
    ensures m < n && LeaseGrantedAt(worlds, steps, m, lease)
  {
    hide Enabled, Effect, LiveGraphs, Planned, Inv, Sealed, RowsOk, CopiesOk, DecisionsOk;
    assert n > 0;
    if lease in worlds[n - 1].issued {
      m := EveryLeaseWasGranted(worlds, steps, n - 1, lease);
    } else {
      HistoryKeepsWorld(worlds, steps, n - 1);
      NewLease(worlds[n - 1], steps[n - 1], lease);
      m := GrantOnRecord(worlds, steps, n - 1, steps[n - 1].copy);
      HistoryKeepsWorld(worlds, steps, m);
      SealedAlike(worlds[n - 1].live[lease.fleetRunId], worlds[m].live[lease.fleetRunId], lease);
    }
  }

  // ---- How approvals end -----------------------------------------------------------------------

  lemma EffectAdvances(w: World, step: ServiceStep, a: Id)
    requires WorldInv(w) && LiveGraphs(w) && Enabled(w, step) && a in w.approvals
    ensures a in Effect(w, step).approvals
    ensures SameBinding(w.approvals[a], Effect(w, step).approvals[a])
    ensures Advances(w.approvals[a].state, Effect(w, step).approvals[a].state)
  {
    hide Inv, Sealed, GraphValid, ClaimReady, NewLeases, Apply, RunAfterDecision, SameGraph, Decided, CopiesOk;
    if step.Decide? && step.fleetId in w.live && step.copy.fleetRunId == step.fleetId {
      DecideAdvances(w, step.fleetId, step.copy, step.grant, step.policyVersion, step.policyHash, step.now);
    }
  }

  /** An approval keeps its binding for ever, is decided once, and after that can only be invalidated. */
  lemma {:induction false} ApprovalsOnlyAdvance(worlds: seq<World>, steps: seq<ServiceStep>, m: nat, n: nat, a: Id)
    requires History(worlds, steps) && m <= n < |worlds| && a in worlds[m].approvals
    ensures a in worlds[n].approvals
    ensures SameBinding(worlds[m].approvals[a], worlds[n].approvals[a])
    ensures Advances(worlds[m].approvals[a].state, worlds[n].approvals[a].state)
  {
    hide Enabled, Effect, LiveGraphs, WorldInv;
    if m < n {
      ApprovalsOnlyAdvance(worlds, steps, m, n - 1, a);
      HistoryKeepsWorld(worlds, steps, n - 1);
      EffectAdvances(worlds[n - 1], steps[n - 1], a);
    }
  }

  /** Once an approval has left Granted it is never granted again. */
  lemma NeverRegranted(worlds: seq<World>, steps: seq<ServiceStep>, m: nat, k: nat, n: nat, a: Id)
    requires History(worlds, steps) && m <= k <= n < |worlds| && a in worlds[m].approvals
    requires worlds[m].approvals[a].state == ApprovalState.Granted
    ensures a in worlds[k].approvals && a in worlds[n].approvals
    ensures worlds[k].approvals[a].state != ApprovalState.Granted ==>
      worlds[n].approvals[a].state == ApprovalState.Invalidated
  {
    hide Enabled, Effect, LiveGraphs;
    ApprovalsOnlyAdvance(worlds, steps, m, k, a);
    ApprovalsOnlyAdvance(worlds, steps, k, n, a);
  }

  /** A second decision on a granted approval, whatever it says, invalidates it. */
  lemma SecondDecisionInvalidates(w: World, step: ServiceStep)
    requires WorldInv(w) && LiveGraphs(w) && Enabled(w, step)
    requires step.Decide? && step.durable && step.fleetId in w.live && step.copy.fleetRunId == step.fleetId
    requires w.approvals[step.copy.id].state == ApprovalState.Granted
    ensures Effect(w, step).approvals[step.copy.id].state == ApprovalState.Invalidated
    ensures w.live[step.fleetId] == Effect(w, step).live[step.fleetId]
  {
    hide Inv, Sealed, GraphValid;
    assert SameBinding(step.copy, w.approvals[step.copy.id]);
  }

  // ---- Stale copies ----------------------------------------------------------------------------

  /**
   A claim works on the copy it read. Its leases are issued under a row that is still granted exactly
   when the row still equals the copy.
   */
  lemma LeaseUnderGrantedRowIff(w: World, step: ServiceStep, lease: Lease)
    requires WorldInv(w) && LiveGraphs(w) && Enabled(w, step)
    requires lease in Effect(w, step).issued && lease !in w.issued
    ensures step.ClaimChildren? && step.copy.id in w.approvals
    ensures w.approvals[step.copy.id].state == ApprovalState.Granted <==> w.approvals[step.copy.id] == step.copy
  {
    hide Enabled, Effect, LiveGraphs, Inv, Sealed, Planned, Authorized;
    NewLease(w, step, lease);
    CopyEnabled(w, step);
  }

  ghost predicate Takes(w: World, step: ServiceStep, v: World) {
    LiveGraphs(w) && Enabled(w, step) && v == Effect(w, step)
  }

  /** So a second decision between reading and claiming leaves leases under an invalidated approval. */
  lemma StaleCopyStillLeases(w: World, id: Id, copy: Approval, pv: nat, ph: string, now: nat, firstId: Id)
    returns (v: World, u: World)
    requires WorldInv(w) && id in w.live && copy in w.copies && copy.id in w.approvals && w.approvals[copy.id] == copy
    requires Authorized(w.live[id], copy, pv, ph, {RunState.Approved})
    ensures Takes(w, Decide(id, copy, true, pv, ph, now, true), v)
    ensures Takes(v, ClaimChildren(id, copy, pv, ph, 1, now, firstId, true), u)
    ensures copy.id in v.approvals && v.approvals[copy.id].state == ApprovalState.Invalidated
    ensures |u.issued| > |v.issued|
  {
    hide Takes, WorldInv, Authorized;
    v := StaleDecision(w, id, copy, pv, ph, now);
    u := StaleClaim(v, id, copy, pv, ph, now, firstId);
  }

  lemma StaleDecision(w: World, id: Id, copy: Approval, pv: nat, ph: string, now: nat) returns (v: World)
    requires WorldInv(w) && id in w.live && copy in w.copies && copy.id in w.approvals && w.approvals[copy.id] == copy
    requires Authorized(w.live[id], copy, pv, ph, {RunState.Approved})
    ensures Takes(w, Decide(id, copy, true, pv, ph, now, true), v) && WorldInv(v)
    ensures id in v.live && v.live[id] == w.live[id] && v.copies == w.copies
    ensures copy.id in v.approvals && v.approvals[copy.id].state == ApprovalState.Invalidated
  {
    hide Inv, Sealed, GraphValid, RowsOk, CopiesOk, DecisionsOk;
    var step := Decide(id, copy, true, pv, ph, now, true);
    LiveOkHasGraphs(w);
    v := Effect(w, step);
    EffectKeepsWorld(w, step);
  }

  lemma StaleClaim(v: World, id: Id, copy: Approval, pv: nat, ph: string, now: nat, firstId: Id) returns (u: World)
    requires WorldInv(v) && id in v.live && copy in v.copies
    requires Authorized(v.live[id], copy, pv, ph, {RunState.Approved})
    ensures Takes(v, ClaimChildren(id, copy, pv, ph, 1, now, firstId, true), u)
    ensures |u.issued| > |v.issued|
  {
    hide Inv, Sealed, GraphValid, RowsOk, CopiesOk, DecisionsOk, ClaimPlan, BlockedStages, MarkRunning, ChildrenOf;
    var s := v.live[id];
    LiveOkHasGraphs(v);
    ApprovedIsIdle(s, firstId);
    SchedulerProgress(s, 1);
    ClaimFits(s, copy, pv, ph, 1, now, firstId);
    u := Effect(v, ClaimChildren(id, copy, pv, ph, 1, now, firstId, true));
  }

  lemma ApprovedIsIdle(s: Fleet, firstId: Id)
    requires Inv(s) && s.state == RunState.Approved
    ensures s.children == [] && NoneActive(s.children) && Unharmed(s.children) && IdsBelow(s.children, firstId)
  {
  }

  lemma CopyEnabled(w: World, step: ServiceStep)
    requires Enabled(w, step) && step.ClaimChildren?
    ensures step.copy in w.copies
  {
  }

  // ---- The graph ---------------------------------------------------------------------------------

  lemma EffectKeepsGraph(w: World, step: ServiceStep, id: Id)
    requires WorldInv(w) && LiveGraphs(w) && Enabled(w, step)
    requires id in w.stored && id in Effect(w, step).live
    ensures id in w.live
    ensures SameIdentity(w.live[id], Effect(w, step).live[id])
    ensures SameGraph(w.live[id].stages, Effect(w, step).live[id].stages)
  {
    hide Inv, Sealed, GraphValid, NewLeases, ClaimReady, CopiesOk, DecisionsOk, Decided;
    var s := w.live[id];
    SameGraphReflexive(s.stages);
    match step
    case Decide(fleetId, copy, grant, pv, ph, now, durable) =>
      DecideMoves(copy, s, grant, pv, ph, now);
    case ClaimChildren(fleetId, copy, pv, ph, requested, now, firstId, durable) =>
      if fleetId == id {
        CoordinatorKeeps(s, ClaimStep(copy, pv, ph, requested, now, firstId));
      }
    case Coordinate(fleetId, inner, durable) =>
      if fleetId == id {
        CoordinatorKeeps(s, inner);
      }
    case _ =>
  }

  lemma EffectKeepsStored(w: World, step: ServiceStep)
    requires WorldInv(w) && LiveGraphs(w) && Enabled(w, step)
    ensures w.stored.Keys <= Effect(w, step).stored.Keys
  {
    hide Inv, Sealed, GraphValid, NewLeases, ClaimReady, Apply, Decided, RunAfterDecision, CopiesOk, DecisionsOk;
  }

  lemma {:induction false} StoredStays(worlds: seq<World>, steps: seq<ServiceStep>, m: nat, n: nat)
    requires History(worlds, steps) && m <= n < |worlds|
    ensures worlds[m].stored.Keys <= worlds[n].stored.Keys
  {
    hide Enabled, Effect, LiveGraphs, WorldInv;
    if m < n {
      StoredStays(worlds, steps, m, n - 1);
      HistoryKeepsWorld(worlds, steps, n - 1);
      EffectKeepsStored(worlds[n - 1], steps[n - 1]);
    }
  }

  /** No step of any history alters the graph, the targets or the policy of a run. */
  lemma {:induction false} GraphNeverAltered(worlds: seq<World>, steps: seq<ServiceStep>, m: nat, n: nat, id: Id)
    requires History(worlds, steps) && m <= n < |worlds| && id in worlds[m].live && id in worlds[n].live
    ensures SameIdentity(worlds[m].live[id], worlds[n].live[id])
    ensures SameGraph(worlds[m].live[id].stages, worlds[n].live[id].stages)
  {
    hide Enabled, Effect, LiveGraphs, SameGraph, Inv, Sealed, CopiesOk, DecisionsOk, RowsOk, StoredOk, SameIdentity;
    if m < n {
      HistoryKeepsWorld(worlds, steps, m);
      HistoryKeepsWorld(worlds, steps, n - 1);
      StoredStays(worlds, steps, m, n - 1);
      EffectKeepsGraph(worlds[n - 1], steps[n - 1], id);
      GraphNeverAltered(worlds, steps, m, n - 1, id);
      SameIdentityChains(worlds[m].live[id], worlds[n - 1].live[id], worlds[n].live[id]);
      SameGraphTransitive(worlds[m].live[id].stages, worlds[n - 1].live[id].stages, worlds[n].live[id].stages);
    } else {
      SameIdentityChains(worlds[m].live[id], worlds[m].live[id], worlds[m].live[id]);
      SameGraphReflexive(worlds[m].live[id].stages);
    }
  }

  lemma SameIdentityChains(s: Fleet, t: Fleet, u: Fleet)
    ensures SameIdentity(s, s)
    ensures SameIdentity(s, t) && SameIdentity(t, u) ==> SameIdentity(s, u)
  {
  }

  // ---- Restarts ------------------------------------------------------------------------------------

  /** After a restart no run of the old process is live again. */
  lemma {:induction false} NeverLiveAgain(worlds: seq<World>, steps: seq<ServiceStep>, m: nat, n: nat, id: Id)
    requires History(worlds, steps) && m < n < |worlds| && steps[m].Restart? && id in worlds[m].stored
    ensures id !in worlds[n].live
  {
    hide Enabled, LiveGraphs, WorldInv, AfterClaim, AfterCoordinate, AfterDecide, Requested;
    if m + 1 < n {
      hide Effect;
      NeverLiveAgain(worlds, steps, m, n - 1, id);
      HistoryKeepsWorld(worlds, steps, n - 1);
      StoredStays(worlds, steps, m, n - 1);
      if id in worlds[n].live {
        EffectKeepsGraph(worlds[n - 1], steps[n - 1], id);
      }
    }
  }

  /** After a restart nothing is ever issued again for a run the restart found in the database. */
  lemma {:induction false} NothingIssuedAfterRestart(
    worlds: seq<World>, steps: seq<ServiceStep>, m: nat, n: nat, lease: Lease)
    requires History(worlds, steps) && m < n < |worlds| && steps[m].Restart?
    requires lease in worlds[n].issued && lease.fleetRunId in worlds[m].stored
    ensures lease in worlds[m].issued
  {
    hide Enabled, LiveGraphs, WorldInv, AfterClaim, AfterCoordinate, AfterDecide, Requested, Planned, Authorized;
    if m + 1 < n {
      hide Effect;
      if lease in worlds[n - 1].issued {
        NothingIssuedAfterRestart(worlds, steps, m, n - 1, lease);
      } else {
        HistoryKeepsWorld(worlds, steps, n - 1);
        NewLease(worlds[n - 1], steps[n - 1], lease);
        NeverLiveAgain(worlds, steps, m, n - 1, lease.fleetRunId);
      }
    }
  }

  /** What a restart leaves at any point: no live run, no usable approval, and stored runs no operation accepts. */
  lemma RestartRevokes(worlds: seq<World>, steps: seq<ServiceStep>, n: nat, id: Id, a: Id, step: Step)
    requires History(worlds, steps) && n < |steps| && steps[n].Restart?
    requires id in worlds[n].stored && a in worlds[n].approvals
    ensures var v := worlds[n + 1];
      && v.live == map[] && v.copies == {}
      && a in v.approvals && (v.approvals[a].state.Rejected? || v.approvals[a].state.Invalidated?)
      && id in v.stored && v.stored[id].recovery == MetadataOnly
      && GraphOk(v.stored[id]) && Apply(v.stored[id], step).Err?
  {
    hide GraphValid, Inv, Sealed;
    HistoryKeepsWorld(worlds, steps, n);
    HistoryKeepsWorld(worlds, steps, n + 1);
  }

  // ---- A concrete history --------------------------------------------------------------------------

  lemma Extended(worlds: seq<World>, steps: seq<ServiceStep>, step: ServiceStep, v: World)
    requires History(worlds, steps) && Takes(worlds[|steps|], step, v)
    ensures History(worlds + [v], steps + [step])
  {
    hide Enabled, Effect, LiveGraphs;
  }

  lemma HistoryTakes(worlds: seq<World>, steps: seq<ServiceStep>, step: ServiceStep) returns (v: World)
    requires History(worlds, steps) && Enabled(worlds[|steps|], step)
    ensures Takes(worlds[|steps|], step, v) && History(worlds + [v], steps + [step])
  {
    hide Enabled, Effect, LiveGraphs, WorldInv;
    HistoryKeepsWorld(worlds, steps, |steps|);
    WorldHasGraphs(worlds[|steps|]);
    v := Effect(worlds[|steps|], step);
    Extended(worlds, steps, step, v);
  }

  lemma WorldHasGraphs(w: World)
    requires WorldInv(w)
    ensures LiveGraphs(w)
  {
    hide Inv, Sealed, GraphOk, StoredOk, RowsOk, CopiesOk, DecisionsOk;
    LiveOkHasGraphs(w);
  }

  /** A drafted run of one stage on two targets. */
  lemma SampleDraft() returns (draft: Fleet)
    ensures Drafted(draft) && draft.id == 7 && draft.version == 1
  {
    var targets := [Target(1, 11, None, 0), Target(2, 12, None, 1)];
    var stages := [Stage(5, "inspect", [1, 2], [], RollingBatch, 2, StageState.Pending)];
    draft := Fleet(7, 1, RunState.Draft, true, Stop, targets, stages, [],
      Digest(true, Stop, targets, stages), Live, 0);
    FleetCompletion.SamplePlan(targets, stages);
    FreshFleetInv(draft);
  }

  /** From an empty database to a run that awaits approval, its pending approval read. */
  lemma AwaitingHistory() returns (worlds: seq<World>, steps: seq<ServiceStep>, copy: Approval)
    ensures History(worlds, steps)
    ensures var w := worlds[|steps|];
      && 7 in w.live && w.live[7].state == RunState.AwaitingApproval
      && copy == Bound(w.live[7], 1, "policy", 100, 0) && copy in w.copies
      && 100 in w.approvals && w.approvals[100] == copy
  {
    hide Inv, Sealed, GraphValid;
    var draft := SampleDraft();
    var w0 := World(map[], map[], map[], {}, []);
    worlds, steps := [w0], [];
    var w1 := HistoryTakes(worlds, steps, Create(draft));
    worlds, steps := worlds + [w1], steps + [Create(draft)];
    var request := Request(7, 1, 1, "policy", 100, 0, true);
    var w2 := HistoryTakes(worlds, steps, request);
    worlds, steps := worlds + [w2], steps + [request];
    copy := w2.approvals[100];
    var w3 := HistoryTakes(worlds, steps, Copy(100));
    worlds, steps := worlds + [w3], steps + [Copy(100)];
  }

  /** On to a granted run whose granted approval has been read. */
  lemma GrantedHistory() returns (worlds: seq<World>, steps: seq<ServiceStep>, copy: Approval)
    ensures History(worlds, steps)
    ensures var w := worlds[|steps|];
      && 7 in w.live && copy in w.copies && copy.id in w.approvals && w.approvals[copy.id] == copy
      && Authorized(w.live[7], copy, 1, "policy", {RunState.Approved})
  {
    hide Inv, Sealed, GraphValid, History;
    var pending: Approval;
    worlds, steps, pending := AwaitingHistory();
    HistoryLength(worlds, steps);
    AwaitingIsLive(worlds, steps, 7);
    var grant := Decide(7, pending, true, 1, "policy", 0, true);
    var v := HistoryTakes(worlds, steps, grant);
    worlds, steps := worlds + [v], steps + [grant];
    HistoryLength(worlds, steps);
    copy := v.approvals[100];
    var u := HistoryTakes(worlds, steps, Copy(100));
    worlds, steps := worlds + [u], steps + [Copy(100)];
    HistoryLength(worlds, steps);
  }

  lemma HistoryLength(worlds: seq<World>, steps: seq<ServiceStep>)
    requires History(worlds, steps)
    ensures |worlds| == |steps| + 1
  {
  }

  lemma AwaitingIsLive(worlds: seq<World>, steps: seq<ServiceStep>, id: Id)
    requires History(worlds, steps) && id in worlds[|steps|].live
    ensures worlds[|steps|].live[id].recovery == Live && worlds[|steps|].live[id].id == id
  {
    hide History, Inv, Sealed, StoredOk, RowsOk, CopiesOk, DecisionsOk;
    HistoryLength(worlds, steps);
    HistoryKeepsWorld(worlds, steps, |steps|);
  }

  /** A history from an empty database that ends by issuing leases under an invalidated approval. */
  lemma StaleHistory() returns (worlds: seq<World>, steps: seq<ServiceStep>, a: Id)
    ensures History(worlds, steps) && |steps| > 0 && steps[|steps| - 1].ClaimChildren?
    ensures var n := |steps| - 1;
      && steps[n].copy.id == a && a in worlds[n].approvals
      && worlds[n].approvals[a].state == ApprovalState.Invalidated
      && |worlds[n + 1].issued| > |worlds[n].issued|
  {
    hide History, Takes, WorldInv, Authorized;
    var copy: Approval;
    worlds, steps, copy := GrantedHistory();
    a := copy.id;
    HistoryLength(worlds, steps);
    HistoryKeepsWorld(worlds, steps, |steps|);
    var second := Decide(7, copy, true, 1, "policy", 0, true);
    var claim := ClaimChildren(7, copy, 1, "policy", 1, 0, 0, true);
    var v, u := StaleCopyStillLeases(worlds[|steps|], 7, copy, 1, "policy", 0, 0);
    Extended(worlds, steps, second, v);
    worlds, steps := worlds + [v], steps + [second];
    HistoryLength(worlds, steps);
    Extended(worlds, steps, claim, u);
    worlds, steps := worlds + [u], steps + [claim];
  }
}
