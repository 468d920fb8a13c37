/**
 The approval protocol around the coordinator: which steps the service takes on its live runs, its
 database and its approvals, in any interleaving, with writes that may fail and restarts anywhere.
 An approval is read from the database before the lock on the live runs is taken, so a step works
 on a copy that may be stale.
 */
module FleetAuthority {
  import opened Basics
  import opened FleetModel
  import opened FleetSchedule
  import opened FleetInvariants
  import opened FleetRuns

  const GRAPH_CHANGED := "FLEET_APPROVAL_GRAPH_CHANGED"
  const TARGETS_CHANGED := "FLEET_APPROVAL_TARGETS_CHANGED"
  const POLICY_CHANGED := "FLEET_APPROVAL_POLICY_CHANGED"
  const NOT_PENDING := "FLEET_APPROVAL_NOT_PENDING"
  const RECOVERED := "FLEET_APPROVAL_RECOVERED"

  /** The live runs and approval copies of one process, and what its database holds. */
  datatype World = World(
    live: map<Id, Fleet>, stored: map<Id, Fleet>, approvals: map<Id, Approval>,
    copies: set<Approval>, issued: seq<Lease>)

  /** `durable` says whether the database accepts the step's one transaction. */
  datatype ServiceStep =
    | Create(fleet: Fleet)
    | Request(fleetId: Id, expectedVersion: nat, policyVersion: nat, policyHash: string, approvalId: Id,
        now: nat, durable: bool)
    | Copy(approvalId: Id)
    | Decide(fleetId: Id, copy: Approval, grant: bool, policyVersion: nat, policyHash: string,
        now: nat, durable: bool)
    | ClaimChildren(fleetId: Id, copy: Approval, policyVersion: nat, policyHash: string, requested: nat,
        now: nat, firstId: Id, durable: bool)
    | Coordinate(fleetId: Id, inner: Step, durable: bool)
    | Restart(now: nat)

  // ---- Approvals ---------------------------------------------------------------------------

  function Bound(run: Fleet, policyVersion: nat, policyHash: string, id: Id, now: nat): Approval {
    Approval(id, run.id, run.version, run.graphDigest, run.targets, policyVersion, policyHash,
      ApprovalState.Pending, None, now, None)
  }

  /** Why a decision on the approval must be refused, if it must. */
  function Refusal(a: Approval, run: Fleet, policyVersion: nat, policyHash: string): Option<string> {
    if a.state != ApprovalState.Pending then Some(NOT_PENDING)
    else if run.recovery != Live then Some(RECOVERED)
    else if run.state != RunState.AwaitingApproval then Some(GRAPH_CHANGED)
    else if a.fleetRunId != run.id || a.fleetVersion != run.version || a.graphDigest != run.graphDigest then
      Some(GRAPH_CHANGED)
    else if a.targets != run.targets then Some(TARGETS_CHANGED)
    else if a.policyVersion != policyVersion || a.policyHash != policyHash then Some(POLICY_CHANGED)
    else None
  }

  function Decided(a: Approval, run: Fleet, grant: bool, policyVersion: nat, policyHash: string, now: nat): Approval {
    match Refusal(a, run, policyVersion, policyHash)
    case Some(reason) =>
      a.(state := ApprovalState.Invalidated, invalidationCode := Some(reason), decidedAt := Some(now))
    case None =>
      a.(state := if grant then ApprovalState.Granted else ApprovalState.Rejected, decidedAt := Some(now))
  }

  function RunAfterDecision(
    a: Approval, run: Fleet, grant: bool, policyVersion: nat, policyHash: string, now: nat): Fleet
  {
    if Refusal(a, run, policyVersion, policyHash).None? then
      run.(state := if grant then RunState.Approved else RunState.Planning, updatedAt := now)
    else if run.state == RunState.AwaitingApproval then run.(state := RunState.Planning, updatedAt := now)
    else run
  }

  // ---- Steps -------------------------------------------------------------------------------

  /** The digest binds the stages the run was drafted with. */
  ghost predicate Sealed(s: Fleet) {
    && s.graphDigest.Digest?
    && s.graphDigest.production == s.production
    && s.graphDigest.failurePolicy == s.failurePolicy
    && s.graphDigest.targets == s.targets
    && SameGraph(s.graphDigest.stages, s.stages)
  }

  ghost predicate Drafted(s: Fleet) {
    Inv(s) && Sealed(s) && s.state == RunState.Draft && s.recovery == Live
  }

  /** New ids are new, a decision works on a copy read earlier, and agent runs get fresh ids. */
  ghost predicate Enabled(w: World, step: ServiceStep) {
    match step
    case Create(fleet) => Drafted(fleet) && fleet.id !in w.stored
    case Request(id, _, _, _, approvalId, _, _) => approvalId !in w.approvals
    case Copy(approvalId) => approvalId in w.approvals
    case Decide(id, copy, _, _, _, _, _) => copy in w.copies
    case ClaimChildren(id, copy, _, _, _, _, firstId, _) =>
      copy in w.copies && (id in w.live ==> IdsBelow(w.live[id].children, firstId))
    case Coordinate(id, inner, _) => !inner.ClaimStep? && (inner.ContinueStep? ==> inner.approval in w.copies)
    case Restart(_) => true
  }

  function Stored(w: World, run: Fleet, durable: bool): map<Id, Fleet> {
    if durable then w.stored[run.id := run] else w.stored
  }

  function Requested(
    w: World, id: Id, expectedVersion: nat, pv: nat, ph: string, approvalId: Id, now: nat, durable: bool): World
  {
    if id !in w.live then w
    else
      var run := w.live[id];
      if run.version != expectedVersion || run.recovery != Live || run.state != RunState.Draft then w
      else
        var next := run.(state := RunState.AwaitingApproval, updatedAt := now);
        w.(live := w.live[id := next],
           stored := Stored(w, next, durable),
           approvals :=
             if durable then w.approvals[approvalId := Bound(next, pv, ph, approvalId, now)] else w.approvals)
  }

  function AfterDecide(w: World, id: Id, copy: Approval, grant: bool, pv: nat, ph: string, now: nat, durable: bool)
    : World
  {
    if id !in w.live || copy.fleetRunId != id then w
    else
      var run := w.live[id];
      if run.state == RunState.AwaitingApproval && run.recovery != Live then w
      else
        var a := Decided(copy, run, grant, pv, ph, now);
        var next := RunAfterDecision(copy, run, grant, pv, ph, now);
        var written := durable && copy.id in w.approvals;
        w.(live := w.live[id := next],
           stored := Stored(w, next, written),
           approvals :=
             if written then
               w.approvals[copy.id := w.approvals[copy.id].(
                 state := a.state, invalidationCode := a.invalidationCode, decidedAt := a.decidedAt)]
             else w.approvals)
  }

  ghost function NewLeases(s: Fleet, t: Fleet, copy: Approval, pv: nat, ph: string): (r: seq<Lease>)
    requires |s.children| <= |t.children|
    requires forall n :: |s.children| <= n < |t.children| ==>
      t.children[n].agentRunId.Some? && HasTarget(s.targets, t.children[n].targetId)
    ensures |r| == |t.children| - |s.children|
    ensures forall n :: 0 <= n < |r| ==> r[n] == LeaseOf(s, copy, pv, ph, t.children[|s.children| + n])
  {
    seq(|t.children| - |s.children|, n requires 0 <= n < |t.children| - |s.children| =>
      LeaseOf(s, copy, pv, ph, t.children[|s.children| + n]))
  }

  ghost predicate LeasesFit(s: Fleet, t: Fleet) {
    && |s.children| <= |t.children|
    && forall n :: |s.children| <= n < |t.children| ==>
         t.children[n].agentRunId.Some? && HasTarget(s.targets, t.children[n].targetId)
  }

  /** Leases leave the service only after the schedule has been written. */
  ghost function AfterClaim(
    w: World, id: Id, copy: Approval, pv: nat, ph: string, requested: nat, now: nat, firstId: Id, durable: bool): World
    requires id in w.live ==> GraphOk(w.live[id])
  {
    if id !in w.live then w
    else
      var s := w.live[id];
      var r := ClaimReady(s, copy, pv, ph, requested, now, firstId);
      if r.Err? then w
      else
        w.(live := w.live[id := r.value],
           stored := Stored(w, r.value, durable),
           issued :=
             if durable && LeasesFit(s, r.value) then w.issued + NewLeases(s, r.value, copy, pv, ph) else w.issued)
  }

  ghost function AfterCoordinate(w: World, id: Id, inner: Step, durable: bool): World
    requires id in w.live ==> GraphOk(w.live[id])
  {
    if id !in w.live then w
    else
      var r := Apply(w.live[id], inner);
      if r.Err? then w else w.(live := w.live[id := r.value], stored := Stored(w, r.value, durable))
  }

  predicate InFlight(state: RunState) {
    state in {RunState.ValidatingTargets, RunState.Investigating, RunState.Planning, RunState.Approved,
              RunState.Executing, RunState.Verifying, RunState.RollingBack}
  }

  function RecoveredFleet(s: Fleet, now: nat): Fleet {
    if InFlight(s.state) then s.(state := RunState.Interrupted, recovery := MetadataOnly, updatedAt := now)
    else s.(recovery := MetadataOnly)
  }

  function RecoveredApproval(a: Approval, now: nat): Approval {
    if a.state in {ApprovalState.Pending, ApprovalState.Granted} then
      a.(state := ApprovalState.Invalidated, invalidationCode := Some(RECOVERED), decidedAt := Some(now))
    else a
  }

  function AfterRestart(w: World, now: nat): World {
    World(map[], map id | id in w.stored :: RecoveredFleet(w.stored[id], now),
      map a | a in w.approvals :: RecoveredApproval(w.approvals[a], now), {}, w.issued)
  }

  ghost predicate LiveGraphs(w: World) {
    forall id :: id in w.live ==> GraphOk(w.live[id])
  }

  ghost function Effect(w: World, step: ServiceStep): World
    requires LiveGraphs(w) && Enabled(w, step)
  {
    match step
    case Create(fleet) => w.(live := w.live[fleet.id := fleet], stored := w.stored[fleet.id := fleet])
    case Request(id, version, pv, ph, approvalId, now, durable) =>
      Requested(w, id, version, pv, ph, approvalId, now, durable)
    case Copy(approvalId) => w.(copies := w.copies + {w.approvals[approvalId]})
    case Decide(id, copy, grant, pv, ph, now, durable) => AfterDecide(w, id, copy, grant, pv, ph, now, durable)
    case ClaimChildren(id, copy, pv, ph, requested, now, firstId, durable) =>
      AfterClaim(w, id, copy, pv, ph, requested, now, firstId, durable)
    case Coordinate(id, inner, durable) => AfterCoordinate(w, id, inner, durable)
    case Restart(now) => AfterRestart(w, now)
  }

  // ---- The invariant -------------------------------------------------------------------------

  ghost predicate LiveOk(w: World) {
    forall id :: id in w.live ==>
      && id in w.stored
      && w.live[id].id == id && w.live[id].recovery == Live
      && Inv(w.live[id]) && Sealed(w.live[id])
  }

  /** Whatever the database holds of a run, its graph is one a claim can work on. */
  ghost predicate StoredOk(w: World) {
    forall id :: id in w.stored ==> GraphOk(w.stored[id])
  }

  ghost predicate SameBinding(a: Approval, b: Approval) {
    a.(state := b.state, invalidationCode := b.invalidationCode, decidedAt := b.decidedAt) == b
  }

  /** The only ways an approval moves: decided once, then at most invalidated. */
  predicate Advances(from: ApprovalState, to: ApprovalState) {
    from == to || from == ApprovalState.Pending || to == ApprovalState.Invalidated
  }

  ghost predicate RowsOk(w: World) {
    forall a :: a in w.approvals ==> w.approvals[a].id == a && w.approvals[a].fleetRunId in w.stored
  }

  ghost predicate CopiesOk(w: World) {
    forall c :: c in w.copies ==>
      && c.id in w.approvals
      && SameBinding(c, w.approvals[c.id])
      && Advances(c.state, w.approvals[c.id].state)
      && (c.state == ApprovalState.Granted && w.approvals[c.id].state == ApprovalState.Granted ==>
           c == w.approvals[c.id])
  }

  /** A run has no approval while it is a draft, and only pending ones while it awaits approval. */
  ghost predicate DecisionsOk(w: World) {
    forall a :: a in w.approvals && w.approvals[a].fleetRunId in w.live ==>
      var run := w.live[w.approvals[a].fleetRunId];
      && run.state != RunState.Draft
      && (run.state == RunState.AwaitingApproval ==> w.approvals[a].state == ApprovalState.Pending)
  }

  ghost predicate WorldInv(w: World) {
    LiveOk(w) && StoredOk(w) && RowsOk(w) && CopiesOk(w) && DecisionsOk(w)
  }

  lemma LiveOkHasGraphs(w: World)
    requires LiveOk(w)
    ensures LiveGraphs(w)
  {
  }

  // ---- What an approval authorises -------------------------------------------------------------

  /**
   A granted approval authorises exactly the run it was bound to, in an allowed state, live, and still with
   the version, graph, targets and policy of that moment.
   */
  lemma AuthorisesIff(
    bound: Fleet, policyVersion: nat, policyHash: string, id: Id, now: nat, s: Fleet,
    currentVersion: nat, currentHash: string, allowed: set<RunState>)
    requires Sealed(bound) && Sealed(s)
    ensures Authorized(s, Bound(bound, policyVersion, policyHash, id, now).(state := ApprovalState.Granted),
        currentVersion, currentHash, allowed) <==>
      && s.recovery == Live && s.state in allowed && s.id == bound.id && s.version == bound.version
      && s.production == bound.production && s.failurePolicy == bound.failurePolicy && s.targets == bound.targets
      && s.graphDigest.stages == bound.graphDigest.stages
      && currentVersion == policyVersion && currentHash == policyHash
  {
  }

  /** Hence what it authorises has the very graph it was bound to. */
  lemma AuthorityMeansBoundGraph(
    bound: Fleet, policyVersion: nat, policyHash: string, id: Id, now: nat, s: Fleet,
    currentVersion: nat, currentHash: string, allowed: set<RunState>)
    requires Sealed(bound) && Sealed(s)
    requires Authorized(s, Bound(bound, policyVersion, policyHash, id, now).(state := ApprovalState.Granted),
      currentVersion, currentHash, allowed)
    ensures SameGraph(bound.stages, s.stages)
  {
  }

  /** A decision authorises the run it moves exactly when it grants and nothing speaks against it. */
  lemma DecisionAuthorisesIff(a: Approval, run: Fleet, grant: bool, policyVersion: nat, policyHash: string, now: nat)
    ensures
      var d, t := Decided(a, run, grant, policyVersion, policyHash, now),
        RunAfterDecision(a, run, grant, policyVersion, policyHash, now);
      Authorized(t, d, policyVersion, policyHash, {RunState.Approved}) <==>
        grant && Refusal(a, run, policyVersion, policyHash).None?
  {
  }

  /** Once decided, an approval cannot be decided again: any later decision invalidates it for good. */
  lemma DecidedIsFinal(
    a: Approval, run: Fleet, grant: bool, policyVersion: nat, policyHash: string, now: nat,
    later: Fleet, again: bool, laterVersion: nat, laterHash: string, after: nat)
    ensures
      var d := Decided(a, run, grant, policyVersion, policyHash, now);
      && Refusal(d, later, laterVersion, laterHash) == Some(NOT_PENDING)
      && Decided(d, later, again, laterVersion, laterHash, after).state == ApprovalState.Invalidated
      && forall s, allowed ::
           !Authorized(s, Decided(d, later, again, laterVersion, laterHash, after), laterVersion, laterHash, allowed)
  {
  }

  // ---- Every step keeps it -------------------------------------------------------------------

  /** What no operation on a run may touch. */
  ghost predicate SameIdentity(s: Fleet, t: Fleet) {
    && s.id == t.id && s.version == t.version && s.production == t.production
    && s.failurePolicy == t.failurePolicy && s.targets == t.targets && s.graphDigest == t.graphDigest
    && s.recovery == t.recovery
  }

  lemma SealedKept(s: Fleet, t: Fleet)
    requires Sealed(s) && SameIdentity(s, t) && SameGraph(s.stages, t.stages)
    ensures Sealed(t)
  {
  }

  lemma StepKeepsIdentity(s: Fleet, step: Step)
    requires GraphOk(s) && Apply(s, step).Ok?
    ensures SameIdentity(s, Apply(s, step).value)
    ensures Apply(s, step).value.state !in {RunState.Draft, RunState.AwaitingApproval}
  {
    hide GraphValid, ClaimPlan, BlockedStages, MarkRunning, SettleActive, RefreshedStages, ReopenedStages,
      AllStagesSucceeded, AnyStageFailed, OutcomeCodeOk, FindRunning;
  }

  lemma CoordinatorKeeps(s: Fleet, step: Step)
    requires Inv(s) && Sealed(s) && Fresh(s, step)
    ensures GraphOk(s)
    ensures Apply(s, step).Ok? ==>
      var t := Apply(s, step).value;
      && Inv(t) && Sealed(t) && SameIdentity(s, t) && SameGraph(s.stages, t.stages)
      && t.state !in {RunState.Draft, RunState.AwaitingApproval}
  {
    hide Inv, Sealed, Fresh, Apply, SameIdentity, SameGraph;
    InvHasGraph(s);
    if Apply(s, step).Ok? {
      var t := Apply(s, step).value;
      assert After(s, step) == t;
      StepKeepsInv(s, step);
      StepKeepsSucceeded(s, step);
      StepKeepsIdentity(s, step);
      SealedKept(s, t);
    }
  }

  /** Moving a run through its approval states touches neither children nor stages. */
  lemma ApprovalMoveKeeps(s: Fleet, state: RunState, now: nat)
    requires Inv(s) && Sealed(s) && BeforeExecution(s.state) && BeforeExecution(state)
    ensures Inv(s.(state := state, updatedAt := now)) && Sealed(s.(state := state, updatedAt := now))
  {
  }

  /** One run is replaced by a value of the same run; everything else about the world stays. */
  ghost predicate Replaces(w: World, v: World, id: Id, t: Fleet) {
    && id in w.live && v.live == w.live[id := t]
    && t.id == id && t.recovery == Live && Inv(t) && Sealed(t)
    && (v.stored == w.stored || v.stored == w.stored[id := t])
    && v.copies == w.copies
  }

  lemma ReplacingKeepsLive(w: World, v: World, id: Id, t: Fleet)
    requires LiveOk(w) && Replaces(w, v, id, t)
    ensures LiveOk(v)
  {
    hide Inv, Sealed;
  }

  lemma ReplacingKeepsStored(w: World, v: World, id: Id, t: Fleet)
    requires StoredOk(w) && Replaces(w, v, id, t)
    ensures StoredOk(v)
  {
    hide Inv, Sealed, GraphOk;
    InvHasGraph(t);
  }

  lemma ReplacingKeepsRest(w: World, v: World, id: Id, t: Fleet)
    requires WorldInv(w) && Replaces(w, v, id, t) && v.approvals == w.approvals
    requires t.state !in {RunState.Draft, RunState.AwaitingApproval}
    ensures WorldInv(v)
  {
    hide Inv, Sealed, LiveOk, StoredOk;
    ReplacingKeepsLive(w, v, id, t);
    ReplacingKeepsStored(w, v, id, t);
  }

  lemma RequestKeeps(w: World, id: Id, version: nat, pv: nat, ph: string, approvalId: Id, now: nat, durable: bool)
    requires WorldInv(w) && approvalId !in w.approvals
    ensures WorldInv(Requested(w, id, version, pv, ph, approvalId, now, durable))
  {
    hide Inv, Sealed, StoredOk;
    var v := Requested(w, id, version, pv, ph, approvalId, now, durable);
    if id in w.live && v != w {
      ApprovalMoveKeeps(w.live[id], RunState.AwaitingApproval, now);
      ReplacingKeepsLive(w, v, id, v.live[id]);
      ReplacingKeepsStored(w, v, id, v.live[id]);
    }
  }

  lemma DecideMoves(copy: Approval, run: Fleet, grant: bool, pv: nat, ph: string, now: nat)
    requires Inv(run) && Sealed(run) && run.recovery == Live
    ensures var t := RunAfterDecision(copy, run, grant, pv, ph, now);
      && Inv(t) && Sealed(t) && SameIdentity(run, t) && t.stages == run.stages && t.children == run.children
      && t.state != RunState.AwaitingApproval
      && (t.state == RunState.Draft ==> t == run)
  {
    hide Inv, Sealed;
    if run.state == RunState.AwaitingApproval {
      ApprovalMoveKeeps(run, RunState.Approved, now);
      ApprovalMoveKeeps(run, RunState.Planning, now);
    }
  }

  /** A decision advances the stored row, and grants only a row that is still pending. */
  lemma DecideAdvances(w: World, id: Id, copy: Approval, grant: bool, pv: nat, ph: string, now: nat)
    requires WorldInv(w) && copy in w.copies && id in w.live && copy.fleetRunId == id
    ensures Advances(w.approvals[copy.id].state, Decided(copy, w.live[id], grant, pv, ph, now).state)
    ensures Decided(copy, w.live[id], grant, pv, ph, now).state == ApprovalState.Granted ==>
      w.approvals[copy.id].state == ApprovalState.Pending
  {
    hide Inv, Sealed;
    assert w.approvals[copy.id].fleetRunId == id;
  }

  lemma RowWriteKeepsCopies(w: World, v: World, id: Id, row: Approval)
    requires CopiesOk(w) && id in w.approvals && v.copies == w.copies && v.approvals == w.approvals[id := row]
    requires SameBinding(w.approvals[id], row) && Advances(w.approvals[id].state, row.state)
    requires row.state == ApprovalState.Granted ==> w.approvals[id].state == ApprovalState.Pending
    ensures CopiesOk(v)
  {
  }

  lemma DecideKeeps(w: World, id: Id, copy: Approval, grant: bool, pv: nat, ph: string, now: nat, durable: bool)
    requires WorldInv(w) && copy in w.copies
    ensures WorldInv(AfterDecide(w, id, copy, grant, pv, ph, now, durable))
  {
    hide Inv, Sealed, StoredOk;
    var v := AfterDecide(w, id, copy, grant, pv, ph, now, durable);
    if id in w.live && copy.fleetRunId == id {
      var run := w.live[id];
      var t := RunAfterDecision(copy, run, grant, pv, ph, now);
      DecideMoves(copy, run, grant, pv, ph, now);
      DecideAdvances(w, id, copy, grant, pv, ph, now);
      ReplacingKeepsLive(w, v, id, t);
      ReplacingKeepsStored(w, v, id, t);
      if durable {
        RowWriteKeepsCopies(w, v, copy.id, v.approvals[copy.id]);
      }
    }
  }

  lemma ClaimKeeps(w: World, step: ServiceStep)
    requires WorldInv(w) && step.ClaimChildren? && LiveGraphs(w) && Enabled(w, step)
    ensures WorldInv(Effect(w, step))
  {
    hide Inv, Sealed, GraphValid, CopiesOk, ClaimReady, NewLeases, SameGraph;
    var ClaimChildren(id, copy, pv, ph, requested, now, firstId, durable) := step;
    if id in w.live {
      var inner := ClaimStep(copy, pv, ph, requested, now, firstId);
      CoordinatorKeeps(w.live[id], inner);
      if Apply(w.live[id], inner).Ok? {
        var t := Apply(w.live[id], inner).value;
        ReplacingKeepsRest(w, Effect(w, step), id, t);
      }
    }
  }

  lemma CoordinateKeeps(w: World, step: ServiceStep)
    requires WorldInv(w) && step.Coordinate? && LiveGraphs(w) && Enabled(w, step)
    ensures WorldInv(Effect(w, step))
  {
    hide Inv, Sealed, GraphValid, CopiesOk, Apply, SameGraph;
    var Coordinate(id, inner, durable) := step;
    if id in w.live {
      CoordinatorKeeps(w.live[id], inner);
      if Apply(w.live[id], inner).Ok? {
        var t := Apply(w.live[id], inner).value;
        ReplacingKeepsRest(w, Effect(w, step), id, t);
      }
    }
  }

  lemma EffectKeepsWorld(w: World, step: ServiceStep)
    requires WorldInv(w) && Enabled(w, step)
    ensures LiveGraphs(w) && WorldInv(Effect(w, step))
  {
    hide Inv, Sealed, GraphValid, Decided, RunAfterDecision, ClaimReady, NewLeases, Apply;
    LiveOkHasGraphs(w);
    match step
    case Create(fleet) => InvHasGraph(fleet);
    case Request(id, version, pv, ph, approvalId, now, durable) =>
      RequestKeeps(w, id, version, pv, ph, approvalId, now, durable);
    case Copy(approvalId) =>
    case Decide(id, copy, grant, pv, ph, now, durable) =>
      DecideKeeps(w, id, copy, grant, pv, ph, now, durable);
    case ClaimChildren(_, _, _, _, _, _, _, _) =>
      ClaimKeeps(w, step);
    case Coordinate(_, _, _) =>
      CoordinateKeeps(w, step);
    case Restart(now) =>
  }
}
