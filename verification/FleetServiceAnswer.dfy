/**
 What the service's steps make of the live runs, the database and the approvals, with every state
 written out: requests, decisions, claims, coordination and restarts.
 */
module FleetServiceAnswer {
  import opened Basics
  import opened FleetModel
  import opened FleetSchedule
  import opened FleetInvariants
  import opened FleetRuns
  import opened FleetAuthority
  import opened FleetStepAnswer
  import FleetHistory

  /** The step puts `t` in the place of live run `id`, in the database too if the write succeeds, and nowhere else. */
  ghost predicate Puts(w: World, v: World, id: Id, t: Fleet, durable: bool) {
    && v.live.Keys == w.live.Keys + {id} && v.live[id] == t
    && (forall x :: x in w.live && x != id ==> v.live[x] == w.live[x])
    && (durable ==>
         && v.stored.Keys == w.stored.Keys + {id} && v.stored[id] == t
         && forall x :: x in w.stored && x != id ==> v.stored[x] == w.stored[x])
    && (!durable ==> v.stored == w.stored)
    && v.copies == w.copies
  }

  lemma WritesPut(w: World, v: World, id: Id, t: Fleet, durable: bool)
    requires v.live == w.live[id := t] && v.copies == w.copies
    requires v.stored == if durable then w.stored[id := t] else w.stored
    ensures Puts(w, v, id, t, durable)
  {
  }

  // ---- Requests ------------------------------------------------------------------------------

  /**
   A request moves exactly a live draft of the expected version to AwaitingApproval and, if it is stored,
   adds one pending approval that binds what the run then is.
   */
  lemma RequestIsTheAnswer(w: World, step: ServiceStep)
    requires WorldInv(w) && LiveGraphs(w) && Enabled(w, step) && step.Request?
    ensures var v, id := Effect(w, step), step.fleetId;
      if id in w.live && w.live[id].version == step.expectedVersion && w.live[id].state == RunState.Draft then
        var run := w.live[id];
        && Puts(w, v, id, run.(state := RunState.AwaitingApproval, updatedAt := step.now), step.durable)
        && v.issued == w.issued
        && (!step.durable ==> v.approvals == w.approvals)
        && (step.durable ==>
             && v.approvals.Keys == w.approvals.Keys + {step.approvalId}
             && (forall a :: a in w.approvals ==> v.approvals[a] == w.approvals[a])
             && v.approvals[step.approvalId] == Approval(step.approvalId, id, step.expectedVersion, run.graphDigest,
                  run.targets, step.policyVersion, step.policyHash, ApprovalState.Pending, None, step.now, None))
      else v == w
  {
    hide Inv, Sealed, GraphValid, Puts, CopiesOk, DecisionsOk, StoredOk;
    var id := step.fleetId;
    if id in w.live && w.live[id].state == RunState.Draft && w.live[id].version == step.expectedVersion {
      WritesPut(w, Effect(w, step), id,
        w.live[id].(state := RunState.AwaitingApproval, updatedAt := step.now), step.durable);
    }
  }

  // ---- Decisions -----------------------------------------------------------------------------

  /** The copied approval is pending and still matches the run and the policy. */
  predicate StillFits(copy: Approval, run: Fleet, policyVersion: nat, policyHash: string) {
    && copy.state == ApprovalState.Pending
    && run.state == RunState.AwaitingApproval
    && copy.fleetRunId == run.id && copy.fleetVersion == run.version && copy.graphDigest == run.graphDigest
    && copy.targets == run.targets
    && copy.policyVersion == policyVersion && copy.policyHash == policyHash
  }

  /** Why an approval that does not fit is invalidated: the first thing that speaks against it. */
  ghost predicate Misfit(copy: Approval, run: Fleet, policyVersion: nat, policyHash: string, code: string) {
    && (copy.state != ApprovalState.Pending ==> code == "FLEET_APPROVAL_NOT_PENDING")
    && (copy.state == ApprovalState.Pending ==>
         var sameGraph :=
           run.state == RunState.AwaitingApproval && copy.fleetVersion == run.version
           && copy.graphDigest == run.graphDigest;
         && (!sameGraph ==> code == "FLEET_APPROVAL_GRAPH_CHANGED")
         && (sameGraph && copy.targets != run.targets ==> code == "FLEET_APPROVAL_TARGETS_CHANGED")
         && (sameGraph && copy.targets == run.targets ==> code == "FLEET_APPROVAL_POLICY_CHANGED"))
  }

  /**
   A decision on a run awaiting approval takes it to Approved exactly when it grants an approval that still
   fits, and back to Planning otherwise, graph and children as they were; a run in any other state stays.
   */
  lemma DecisionMovesRun(w: World, step: ServiceStep)
    requires WorldInv(w) && LiveGraphs(w) && Enabled(w, step) && step.Decide?
    requires step.fleetId in w.live && step.copy.fleetRunId == step.fleetId
    ensures step.fleetId in Effect(w, step).live
    ensures var run, t := w.live[step.fleetId], Effect(w, step).live[step.fleetId];
      && (run.state != RunState.AwaitingApproval ==> t == run)
      && (run.state == RunState.AwaitingApproval ==>
           && t == run.(state := t.state, updatedAt := step.now)
           && (t.state == RunState.Approved <==>
                step.grant && StillFits(step.copy, run, step.policyVersion, step.policyHash))
           && (t.state == RunState.Planning <==>
                !(step.grant && StillFits(step.copy, run, step.policyVersion, step.policyHash))))
      && Puts(w, Effect(w, step), step.fleetId, t, step.durable)
  {
    hide Inv, Sealed, GraphValid, Decided, Puts, DecisionsOk, StoredOk;
    WritesPut(w, Effect(w, step), step.fleetId, Effect(w, step).live[step.fleetId], step.durable);
  }

  /**
   A stored decision settles the approval's row: granted or rejected as decided if it still fits, otherwise
   invalidated with the reason. Nothing else about the approvals changes, nor anything if it is not stored.
   */
  lemma DecisionSettlesRow(w: World, step: ServiceStep)
    requires WorldInv(w) && LiveGraphs(w) && Enabled(w, step) && step.Decide?
    ensures var v, copy := Effect(w, step), step.copy;
      if step.durable && step.fleetId in w.live && copy.fleetRunId == step.fleetId then
        && v.approvals.Keys == w.approvals.Keys
        && copy.id in w.approvals
        && (forall a :: a in w.approvals && a != copy.id ==> v.approvals[a] == w.approvals[a])
        && var row, run := v.approvals[copy.id], w.live[step.fleetId];
           && SameBinding(w.approvals[copy.id], row)
           && row.decidedAt == Some(step.now)
           && (StillFits(copy, run, step.policyVersion, step.policyHash) ==>
                && row.state == (if step.grant then ApprovalState.Granted else ApprovalState.Rejected)
                && row.invalidationCode == copy.invalidationCode)
           && (!StillFits(copy, run, step.policyVersion, step.policyHash) ==>
                && row.state == ApprovalState.Invalidated
                && row.invalidationCode.Some?
                && Misfit(copy, run, step.policyVersion, step.policyHash, row.invalidationCode.value))
      else v.approvals == w.approvals
    ensures step.fleetId !in w.live || step.copy.fleetRunId != step.fleetId ==> Effect(w, step) == w
    ensures Effect(w, step).issued == w.issued
  {
    hide Inv, Sealed, GraphValid, RunAfterDecision, DecisionsOk, StoredOk;
  }

  // ---- Claims and coordination ---------------------------------------------------------------

  /** The lease names its run, approval, stage, agent run, target, attempt and policy. */
  predicate LeaseFor(s: Fleet, c: Child, copy: Approval, policyVersion: nat, policyHash: string, lease: Lease) {
    && lease.fleetRunId == s.id && lease.fleetVersion == s.version && lease.graphDigest == s.graphDigest
    && lease.approvalId == copy.id
    && lease.stageId == c.stageId && Some(lease.agentRunId) == c.agentRunId && lease.attempt == c.attempt
    && lease.target in s.targets && lease.target.profileId == c.targetId
    && lease.policyVersion == policyVersion && lease.policyHash == policyHash
  }

  /** One lease for each child of `t` that is new. */
  ghost predicate HandsOut(s: Fleet, t: Fleet, copy: Approval, pv: nat, ph: string, leases: seq<Lease>) {
    && |t.children| == |s.children| + |leases|
    && forall n :: 0 <= n < |leases| ==> LeaseFor(s, t.children[|s.children| + n], copy, pv, ph, leases[n])
  }

  lemma NewLeasesName(s: Fleet, t: Fleet, copy: Approval, pv: nat, ph: string)
    requires LeasesFit(s, t)
    ensures HandsOut(s, t, copy, pv, ph, NewLeases(s, t, copy, pv, ph))
  {
  }

  /** A claim stores the schedule and hands out one lease per new child; what it does not store it does not hand out. */
  lemma ClaimHandsOut(w: World, step: ServiceStep)
    requires WorldInv(w) && LiveGraphs(w) && Enabled(w, step) && step.ClaimChildren?
    ensures Effect(w, step).approvals == w.approvals
    ensures var v, id := Effect(w, step), step.fleetId;
      if id in w.live && ClaimReady(w.live[id], step.copy, step.policyVersion, step.policyHash, step.requested,
          step.now, step.firstId).Ok? then
        var s := w.live[id];
        var t := ClaimReady(s, step.copy, step.policyVersion, step.policyHash, step.requested, step.now,
          step.firstId).value;
        && Puts(w, v, id, t, step.durable)
        && w.issued <= v.issued
        && if step.durable
           then HandsOut(s, t, step.copy, step.policyVersion, step.policyHash, v.issued[|w.issued|..])
           else v.issued == w.issued
      else v == w
  {
    hide Inv, Sealed, GraphValid, ClaimReady, IdsBelow, HasTarget, LeasesFit, NewLeases, HandsOut, Puts, CopiesOk,
      RowsOk, DecisionsOk, StoredOk, SameGraph;
    var ClaimChildren(id, copy, pv, ph, requested, now, firstId, durable) := step;
    if id in w.live && ClaimReady(w.live[id], copy, pv, ph, requested, now, firstId).Ok? {
      var s := w.live[id];
      var t := ClaimReady(s, copy, pv, ph, requested, now, firstId).value;
      FleetHistory.ClaimFits(s, copy, pv, ph, requested, now, firstId);
      CoordinatorKeeps(s, ClaimStep(copy, pv, ph, requested, now, firstId));
      NewLeasesName(s, t, copy, pv, ph);
      WritesPut(w, Effect(w, step), id, t, durable);
    }
  }

  /** Any other coordinator step replaces the run by what the operation makes of it, or is refused. */
  lemma CoordinationPuts(w: World, step: ServiceStep)
    requires WorldInv(w) && LiveGraphs(w) && Enabled(w, step) && step.Coordinate?
    ensures var v, id := Effect(w, step), step.fleetId;
      v.approvals == w.approvals && v.issued == w.issued &&
      if id in w.live && Apply(w.live[id], step.inner).Ok? then
        Puts(w, v, id, Apply(w.live[id], step.inner).value, step.durable)
      else v == w
  {
    hide Inv, Sealed, GraphValid, Apply, Puts;
    var id := step.fleetId;
    if id in w.live && Apply(w.live[id], step.inner).Ok? {
      CoordinatorKeeps(w.live[id], step.inner);
      WritesPut(w, Effect(w, step), id, Apply(w.live[id], step.inner).value, step.durable);
    }
  }

  // ---- Restarts ------------------------------------------------------------------------------

  /**
   A restart forgets the live runs. Exactly the runs that were under way are interrupted, all others keep
   their state; every run keeps its graph and children and is metadata only. Every pending or granted
   approval is invalidated, every other stays.
   */
  lemma RestartIsTheAnswer(w: World, step: ServiceStep)
    requires LiveGraphs(w) && Enabled(w, step) && step.Restart?
    ensures var v := Effect(w, step);
      && v.live == map[] && v.copies == {} && v.issued == w.issued
      && v.stored.Keys == w.stored.Keys && v.approvals.Keys == w.approvals.Keys
      && (forall id :: id in w.stored ==>
           var s := w.stored[id];
           v.stored[id] ==
             if s.state in {RunState.ValidatingTargets, RunState.Investigating, RunState.Planning,
                  RunState.Approved, RunState.Executing, RunState.Verifying, RunState.RollingBack}
             then s.(recovery := MetadataOnly, state := RunState.Interrupted, updatedAt := step.now)
             else s.(recovery := MetadataOnly))
      && (forall a :: a in w.approvals ==>
           var row := w.approvals[a];
           v.approvals[a] ==
             if row.state in {ApprovalState.Pending, ApprovalState.Granted}
             then row.(state := ApprovalState.Invalidated,
                       invalidationCode := Some("FLEET_APPROVAL_RECOVERED"), decidedAt := Some(step.now))
             else row)
  {
  }
}
