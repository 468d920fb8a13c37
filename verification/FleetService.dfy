/**
 The service's operations on its live runs and its database, statement by statement, each proved to
 take the step of `FleetAuthority` it stands for.
 */
module FleetService {
  import opened Basics
  import opened FleetModel
  import opened FleetSchedule
  import opened FleetInvariants
  import opened FleetRuns
  import opened FleetDrafts
  import opened FleetCoordinator
  import opened FleetAuthority
  import FleetStorage

  datatype ServiceError = InvalidOperation | Storage

  // ---- Approvals ---------------------------------------------------------------------------

  class FleetApproval {
    const id: Id
    const fleetRunId: Id
    const fleetVersion: nat
    const graphDigest: Digest
    const targets: seq<Target>
    const policyVersion: nat
    const policyHash: string
    const createdAt: nat
    var state: ApprovalState
    var invalidationCode: Option<string>
    var decidedAt: Option<nat>

    function View(): (a: Approval)
      reads this
    {
      Approval(id, fleetRunId, fleetVersion, graphDigest, targets, policyVersion, policyHash, state,
        invalidationCode, createdAt, decidedAt)
    }

    constructor (a: Approval)
      ensures View() == a
    {
      id, fleetRunId, fleetVersion, graphDigest := a.id, a.fleetRunId, a.fleetVersion, a.graphDigest;
      targets, policyVersion, policyHash, createdAt := a.targets, a.policyVersion, a.policyHash, a.createdAt;
      state, invalidationCode, decidedAt := a.state, a.invalidationCode, a.decidedAt;
    }

    method Decide(to: ApprovalState, now: nat)
      modifies this
      ensures View() == old(View()).(state := to, decidedAt := Some(now))
    {
      state := to;
      decidedAt := Some(now);
    }

    method Invalidate(code: string, now: nat)
      modifies this
      ensures View() == old(View()).(
        state := ApprovalState.Invalidated, invalidationCode := Some(code), decidedAt := Some(now))
    {
      state := ApprovalState.Invalidated;
      invalidationCode := Some(code);
      decidedAt := Some(now);
    }
  }

  /** A run can be bound only while it is live and awaiting approval; the approval copies its identity. */
  method Bind(run: Fleet, policyVersion: nat, policyHash: string, id: Id, now: nat)
    returns (r: Result<Approval, string>)
    ensures r.Ok? <==> run.recovery == Live && run.state == RunState.AwaitingApproval
    ensures r.Ok? ==> r.value == Bound(run, policyVersion, policyHash, id, now)
    ensures r.Ok? ==> Refusal(r.value, run, policyVersion, policyHash).None?
    ensures r.Err? ==> r.error == RECOVERED
  {
    if run.recovery != Live || run.state != RunState.AwaitingApproval {
      return Err(RECOVERED);
    }
    r := Ok(Approval(id, run.id, run.version, run.graphDigest, run.targets, policyVersion, policyHash,
      ApprovalState.Pending, None, now, None));
  }

  lemma ClaimedLeases(s: Fleet, t: Fleet, w: Warrant)
    requires |s.children| <= |t.children| && Leasable(s, t.children[|s.children|..])
    ensures LeasesFit(s, t)
    ensures LeasesOf(s, w, t.children[|s.children|..])
         == NewLeases(s, t, w.approval, w.policyVersion, w.policyHash)
  {
  }

  /** The tables refuse a reachable run exactly when a pair of it was leased again at the attempt limit. */
  method StoreReachable(tables: FleetStorage.FleetTables, s: Fleet) returns (stored: bool)
    requires tables.Valid() && Inv(s)
    modifies tables
    ensures tables.Valid()
    ensures stored <==> forall i, j :: 0 <= i < j < |s.children| && SamePair(s.children[i], s.children[j]) ==>
      s.children[i].attempt < MAX_ATTEMPT
    ensures tables.contents == if stored then old(tables.contents)[s.id := s] else old(tables.contents)
  {
    hide Inv, MetadataValid;
    MetadataValidIffUnsaturated(s);
    var r := tables.WriteFleetRun(s, false);
    stored := r.Ok?;
  }

  /** The four transitions before approval; only a draft gets past the first, and then past all. */
  method WalkToApproval(run: FleetRun, now: nat) returns (reached: bool)
    modifies run
    ensures reached <==> old(run.recovery) == Live && old(run.state) == RunState.Draft
    ensures reached ==> run.View() == old(run.View()).(state := RunState.AwaitingApproval, updatedAt := now)
    ensures !reached ==> run.View() == old(run.View())
  {
    var path := [RunState.ValidatingTargets, RunState.Investigating, RunState.Planning, RunState.AwaitingApproval];
    var k := 0;
    while k < 4
      invariant 0 <= k <= 4
      invariant k == 0 ==> run.View() == old(run.View())
      invariant k > 0 ==> old(run.recovery) == Live && old(run.state) == RunState.Draft
      invariant k > 0 ==> run.View() == old(run.View()).(state := path[k - 1], updatedAt := now)
    {
      var moved := run.TransitionTo(path[k], now);
      if moved.Err? {
        return false;
      }
      k := k + 1;
    }
    reached := true;
  }

  // ---- The service -------------------------------------------------------------------------

  class Service {
    var live: map<Id, Fleet>
    var stored: map<Id, Fleet>
    var approvals: map<Id, Approval>
    ghost var copies: set<Approval>
    ghost var issued: seq<Lease>

    ghost function Snapshot(): (w: World)
      reads this
    {
      World(live, stored, approvals, copies, issued)
    }

    constructor ()
      ensures Snapshot() == World(map[], map[], map[], {}, [])
    {
      live, stored, approvals, copies, issued := map[], map[], map[], {}, [];
    }

    /** Writes one run, in the transaction of the step. */
    method WriteRun(run: Fleet)
      modifies `stored
      ensures stored == old(stored)[run.id := run]
    {
      stored := stored[run.id := run];
    }

    method CreateDraft(request: FleetDraft, clean: string -> string, id: Id, now: nat)
      returns (r: Result<Fleet, PlanError>)
      requires id !in stored
      modifies this
      ensures r.Ok? <==> DraftValid(request, clean)
      ensures r.Ok? ==> Drafted(r.value) && r.value.id == id
      ensures r.Ok? ==>
        Snapshot() == old(Snapshot()).(live := old(live)[id := r.value], stored := old(stored)[id := r.value])
      ensures r.Err? ==> Snapshot() == old(Snapshot())
    {
      hide DraftValid, Inv, MetadataValid;
      r := FleetDrafts.Draft(request, clean, id, now);
      if r.Err? {
        return;
      }
      WriteRun(r.value);
      live := live[id := r.value];
      SameGraphReflexive(r.value.stages);
    }

    /** Takes a draft through validation and planning and asks for its approval. */
    method RequestApproval(
      id: Id, expectedVersion: nat, policyVersion: nat, policyHash: string, approvalId: Id, now: nat, durable: bool)
      returns (r: Result<Approval, ServiceError>)
      requires LiveOk(Snapshot()) && approvalId !in approvals
      modifies this
      ensures Snapshot() ==
        Requested(old(Snapshot()), id, expectedVersion, policyVersion, policyHash, approvalId, now, durable)
      ensures r.Ok? <==>
        durable && id in old(live) && old(live)[id].version == expectedVersion && old(live)[id].state == RunState.Draft
      ensures r.Ok? ==> approvals == old(approvals)[approvalId := r.value] && r.value.fleetRunId == id
    {
      hide Inv, Sealed;
      if id !in live {
        return Err(InvalidOperation);
      }
      var run := new FleetRun(live[id]);
      if run.version != expectedVersion || run.recovery != Live {
        return Err(InvalidOperation);
      }
      var reached := WalkToApproval(run, now);
      if !reached {
        return Err(InvalidOperation);
      }
      live := live[id := run.View()];
      var approval := Bind(run.View(), policyVersion, policyHash, approvalId, now);
      assert approval.Ok?;
      if !durable {
        return Err(Storage);
      }
      WriteRun(run.View());
      approvals := approvals[approvalId := approval.value];
      r := Ok(approval.value);
    }

    /** Reads an approval from the database, before the lock on the live runs is taken. */
    method GetApproval(approvalId: Id) returns (r: Option<Approval>)
      modifies `copies
      ensures r.Some? <==> approvalId in approvals
      ensures r.Some? ==> r.value == approvals[approvalId]
      ensures r.Some? ==> Snapshot() == old(Snapshot()).(copies := old(copies) + {r.value})
      ensures r.None? ==> Snapshot() == old(Snapshot())
    {
      if approvalId !in approvals {
        return None;
      }
      copies := copies + {approvals[approvalId]};
      r := Some(approvals[approvalId]);
    }

    /** Grants, rejects or invalidates, and moves the run with the decision. */
    method DecideApproval(
      id: Id, copy: Approval, grant: bool, policyVersion: nat, policyHash: string, now: nat, durable: bool)
      returns (r: Result<Approval, ServiceError>)
      requires LiveOk(Snapshot()) && copy.id in approvals
      modifies this
      ensures Snapshot() == AfterDecide(old(Snapshot()), id, copy, grant, policyVersion, policyHash, now, durable)
      ensures r.Ok? <==> durable && id in old(live) && copy.fleetRunId == id
      ensures r.Ok? ==> r.value == Decided(copy, old(live)[id], grant, policyVersion, policyHash, now)
    {
      hide Inv, Sealed;
      if id !in live || copy.fleetRunId != id {
        return Err(InvalidOperation);
      }
      var run := new FleetRun(live[id]);
      var approval := new FleetApproval(copy);
      var refusal := Refusal(copy, live[id], policyVersion, policyHash);
      if refusal.None? {
        approval.Decide(if grant then ApprovalState.Granted else ApprovalState.Rejected, now);
        var moved := run.TransitionTo(if grant then RunState.Approved else RunState.Planning, now);
      } else {
        approval.Invalidate(refusal.value, now);
        if run.state == RunState.AwaitingApproval {
          var moved := run.TransitionTo(RunState.Planning, now);
        }
      }
      live := live[id := run.View()];
      if !durable {
        return Err(Storage);
      }
      WriteRun(run.View());
      approvals := approvals[copy.id := approvals[copy.id].(
        state := approval.state, invalidationCode := approval.invalidationCode, decidedAt := approval.decidedAt)];
      r := Ok(approval.View());
    }

    /** Schedules under the copied approval; the leases are handed out only once they are stored. */
    method ClaimChildren(
      id: Id, copy: Approval, policyVersion: nat, policyHash: string, requested: nat, now: nat, firstId: Id,
      durable: bool)
      returns (r: Result<seq<Lease>, ServiceError>)
      requires LiveOk(Snapshot()) && LiveGraphs(Snapshot())
      modifies this
      ensures Snapshot() ==
        AfterClaim(old(Snapshot()), id, copy, policyVersion, policyHash, requested, now, firstId, durable)
      ensures r.Ok? <==>
        && durable && id in old(live)
        && FleetSchedule.ClaimReady(old(live)[id], copy, policyVersion, policyHash, requested, now, firstId).Ok?
      ensures issued == old(issued) + if r.Ok? then r.value else []
    {
      hide Inv, Sealed, GraphValid, FleetSchedule.ClaimReady, NewLeases, LeasesOf;
      if id !in live {
        return Err(InvalidOperation);
      }
      ghost var s := live[id];
      var run := new FleetRun(live[id]);
      var w := Warrant(copy, policyVersion, policyHash);
      var leases := run.ClaimReady(w, requested, now, firstId);
      if leases.Err? {
        return Err(InvalidOperation);
      }
      ClaimKeepsId(s, copy, policyVersion, policyHash, requested, now, firstId);
      live := live[id := run.View()];
      if !durable {
        return Err(Storage);
      }
      WriteRun(run.View());
      ClaimedLeases(s, run.View(), w);
      issued := issued + leases.value;
      r := Ok(leases.value);
    }

    method RecordChildOutcome(
      id: Id, agent: Id, outcome: ChildOutcome, code: Option<string>, now: nat, durable: bool)
      returns (r: Result<Fleet, ServiceError>)
      requires LiveOk(Snapshot()) && LiveGraphs(Snapshot())
      modifies this
      ensures Snapshot() == AfterCoordinate(old(Snapshot()), id, OutcomeStep(agent, outcome, code, now), durable)
      ensures r.Ok? <==>
        && durable && id in old(live)
        && FleetSchedule.RecordOutcome(old(live)[id], agent, outcome, code, now).Ok?
      ensures r.Ok? ==> id in live && r.value == live[id] && r.value == stored[id]
    {
      hide Inv, Sealed, GraphValid, FleetSchedule.RecordOutcome;
      if id !in live {
        return Err(InvalidOperation);
      }
      GraphIsDistinct(live[id]);
      var run := new FleetRun(live[id]);
      var recorded := run.RecordOutcome(agent, outcome, code, now);
      if recorded.Err? {
        return Err(InvalidOperation);
      }
      live := live[id := run.View()];
      if !durable {
        return Err(Storage);
      }
      WriteRun(run.View());
      r := Ok(run.View());
    }

    method ContinueFleet(id: Id, copy: Approval, policyVersion: nat, policyHash: string, now: nat, durable: bool)
      returns (r: Result<seq<Id>, ServiceError>)
      requires LiveOk(Snapshot()) && LiveGraphs(Snapshot())
      modifies this
      ensures Snapshot() ==
        AfterCoordinate(old(Snapshot()), id, ContinueStep(copy, policyVersion, policyHash, now), durable)
      ensures r.Ok? <==>
        && durable && id in old(live)
        && ContinueAfterReview(old(live)[id], copy, policyVersion, policyHash, now).Ok?
      ensures r.Ok? ==> id in old(live) && r.value == BlockedAgents(old(live)[id].children)
    {
      hide Inv, Sealed, GraphValid, ReopenedStages;
      if id !in live {
        return Err(InvalidOperation);
      }
      var run := new FleetRun(live[id]);
      var paused := run.ContinueAfterReview(Warrant(copy, policyVersion, policyHash), now);
      if paused.Err? {
        return Err(InvalidOperation);
      }
      live := live[id := run.View()];
      if !durable {
        return Err(Storage);
      }
      WriteRun(run.View());
      r := Ok(paused.value);
    }

    /** Pauses or cancels, and names the agent runs that must be stopped. */
    method InterruptFleet(id: Id, cancel: bool, now: nat, durable: bool) returns (r: Result<seq<Id>, ServiceError>)
      requires LiveOk(Snapshot()) && LiveGraphs(Snapshot())
      modifies this
      ensures Snapshot() ==
        AfterCoordinate(old(Snapshot()), id, if cancel then CancelStep(now) else PauseStep(now), durable)
      ensures r.Ok? <==>
        && durable && id in old(live)
        && Apply(old(live)[id], if cancel then CancelStep(now) else PauseStep(now)).Ok?
      ensures r.Ok? ==> id in old(live) && r.value == ActiveAgents(old(live)[id].children)
    {
      hide Inv, Sealed, GraphValid, SettleActive;
      if id !in live {
        return Err(InvalidOperation);
      }
      var run := new FleetRun(live[id]);
      var children: Result<seq<Id>, CoordinatorError>;
      if cancel {
        children := run.Cancel(now);
      } else {
        children := run.Pause(now);
      }
      if children.Err? {
        return Err(InvalidOperation);
      }
      live := live[id := run.View()];
      if !durable {
        return Err(Storage);
      }
      WriteRun(run.View());
      r := Ok(children.value);
    }

    /** Startup: memory is gone, in-flight runs are interrupted, approvals are revoked. */
    method RecoverFleetRuns(now: nat)
      modifies this
      ensures Snapshot() == AfterRestart(old(Snapshot()), now)
    {
      live := map[];
      copies := {};
      stored := map id | id in stored :: RecoveredFleet(stored[id], now);
      approvals := map a | a in approvals :: RecoveredApproval(approvals[a], now);
    }
  }

  lemma ClaimKeepsId(s: Fleet, copy: Approval, pv: nat, ph: string, requested: nat, now: nat, firstId: Id)
    requires GraphOk(s) && FleetSchedule.ClaimReady(s, copy, pv, ph, requested, now, firstId).Ok?
    ensures FleetSchedule.ClaimReady(s, copy, pv, ph, requested, now, firstId).value.id == s.id
  {
  }
}
