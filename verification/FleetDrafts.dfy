/** Drafting a Fleet run and checking the metadata of a stored one. */
module FleetDrafts {
  import opened Basics
  import opened FleetModel
  import opened FleetInvariants
  import opened FleetRuns
  import opened FleetGraph

  datatype FleetDraft = FleetDraft(
    production: bool, failurePolicy: FailurePolicy, targets: seq<Target>, stages: seq<StageDraft>)

  // ---- Targets -------------------------------------------------------------------------------

  method ValidateTargets(targets: seq<Target>) returns (r: Result<(), PlanError>)
    ensures r == Ok(()) || r == Err(InvalidTargets)
    ensures r.Ok? <==> TargetsValid(targets)
  {
    if !(MIN_FLEET_TARGETS <= |targets| <= MAX_FLEET_TARGETS) {
      return Err(InvalidTargets);
    }
    var profiles: set<Id> := {};
    var sessions: set<Id> := {};
    for i := 0 to |targets|
      invariant forall x :: x in profiles <==> exists n :: 0 <= n < i && targets[n].profileId == x
      invariant forall x :: x in sessions <==> exists n :: 0 <= n < i && targets[n].sessionId == x
      invariant forall n :: 0 <= n < i ==> targets[n].ordinal == n
      invariant forall m, n :: 0 <= m < n < i ==> targets[m].profileId != targets[n].profileId
      invariant forall m, n :: 0 <= m < n < i ==> targets[m].sessionId != targets[n].sessionId
    {
      var target := targets[i];
      if target.ordinal != i || target.profileId in profiles || target.sessionId in sessions {
        return Err(InvalidTargets);
      }
      profiles := profiles + {target.profileId};
      sessions := sessions + {target.sessionId};
    }
    r := Ok(());
  }

  // ---- Stages --------------------------------------------------------------------------------

  function StageOf(d: StageDraft, clean: string -> string): Stage {
    Stage(d.id, clean(d.summary), d.targetIds, d.dependsOn, d.strategy, d.concurrencyLimit, StageState.Pending)
  }

  /** The stages a draft asks for, their summaries trimmed and redacted by `clean`. */
  function Staged(drafts: seq<StageDraft>, clean: string -> string): (r: seq<Stage>)
    ensures |r| == |drafts|
  {
    seq(|drafts|, k requires 0 <= k < |drafts| => StageOf(drafts[k], clean))
  }

  predicate SummaryOk(st: Stage) {
    0 < Octets(st.summary) <= MAX_STAGE_SUMMARY_BYTES
  }

  ghost predicate TargetsOfStageKnown(targets: seq<Target>, st: Stage) {
    forall t :: t in st.targetIds ==> HasTarget(targets, t)
  }

  ghost predicate DependenciesOk(stages: seq<Stage>, st: Stage) {
    Distinct(st.dependsOn) && st.id !in st.dependsOn && forall d :: d in st.dependsOn ==> HasStage(stages, d)
  }

  predicate LimitOk(st: Stage) {
    0 < st.concurrencyLimit <= |st.targetIds| && (st.strategy == Sequential ==> st.concurrencyLimit == 1)
  }

  ghost predicate StageAccepted(production: bool, targets: seq<Target>, stages: seq<Stage>, st: Stage) {
    && SummaryOk(st)
    && StageValid(targets, stages, st)
    && !(production && st.strategy == Parallel)
  }

  ghost predicate PlanValid(production: bool, targets: seq<Target>, stages: seq<Stage>) {
    && 0 < |stages| <= MAX_FLEET_STAGES
    && DistinctStages(stages)
    && (forall k :: 0 <= k < |stages| ==> StageAccepted(production, targets, stages, stages[k]))
    && Acyclic(stages)
  }

  /** Stage `st` breaks the rule the error names. */
  ghost predicate Breaks(
    e: PlanError, production: bool, targets: seq<Target>, stages: seq<Stage>, st: Stage)
  {
    match e
    case InvalidStages => !SummaryOk(st) || st.targetIds == [] || !Distinct(st.targetIds) || !LimitOk(st)
    case UnknownTarget => !TargetsOfStageKnown(targets, st)
    case InvalidDependency => !DependenciesOk(stages, st)
    case ProductionParallel => production && st.strategy == Parallel
    case _ => false
  }

  /** A refusal names what the first faulty stage breaks; a cycle only when no stage is faulty. */
  ghost predicate Explains(e: PlanError, production: bool, targets: seq<Target>, stages: seq<Stage>) {
    || (e == InvalidStages && !(0 < |stages| <= MAX_FLEET_STAGES && DistinctStages(stages)))
    || (exists k ::
          && 0 <= k < |stages|
          && (forall i :: 0 <= i < k ==> StageAccepted(production, targets, stages, stages[i]))
          && Breaks(e, production, targets, stages, stages[k]))
    || (e == DependencyCycle && !Acyclic(stages)
        && forall k :: 0 <= k < |stages| ==> StageAccepted(production, targets, stages, stages[k]))
  }

  lemma StageDistinctCardinality(stages: seq<Stage>)
    ensures |StageIds(stages)| == |stages| <==> DistinctStages(stages)
  {
    var ids := seq(|stages|, k requires 0 <= k < |stages| => stages[k].id);
    forall x ensures x in Elements(ids) <==> x in StageIds(stages) {
      if x in ids {
        var k :| 0 <= k < |ids| && ids[k] == x;
        assert stages[k].id == x;
      }
      if x in StageIds(stages) {
        var k :| 0 <= k < |stages| && stages[k].id == x;
        assert ids[k] == x;
      }
    }
    assert Elements(ids) == StageIds(stages);
    DistinctCardinality(ids);
    if Distinct(ids) {
      forall i, j | 0 <= i < j < |stages| ensures stages[i].id != stages[j].id {
        assert ids[i] != ids[j];
      }
    }
  }

  method CheckStage(
    production: bool, knownTargets: set<Id>, knownStages: set<Id>, st: Stage,
    ghost targets: seq<Target>, ghost stages: seq<Stage>)
    returns (r: Result<(), PlanError>)
    requires forall x :: x in knownTargets <==> HasTarget(targets, x)
    requires forall x :: x in knownStages <==> HasStage(stages, x)
    ensures r.Ok? <==> StageAccepted(production, targets, stages, st)
    ensures r.Err? ==> Breaks(r.error, production, targets, stages, st)
  {
    if st.summary == "" || Octets(st.summary) > MAX_STAGE_SUMMARY_BYTES {
      return Err(InvalidStages);
    }
    var uniqueTargets := Elements(st.targetIds);
    DistinctCardinality(st.targetIds);
    if st.targetIds == [] || |uniqueTargets| != |st.targetIds| {
      return Err(InvalidStages);
    }
    if !(uniqueTargets <= knownTargets) {
      return Err(UnknownTarget);
    }
    var uniqueDependencies := Elements(st.dependsOn);
    DistinctCardinality(st.dependsOn);
    if |uniqueDependencies| != |st.dependsOn| || st.id in uniqueDependencies
       || !(uniqueDependencies <= knownStages) {
      return Err(InvalidDependency);
    }
    if st.concurrencyLimit == 0 || st.concurrencyLimit > |st.targetIds| {
      return Err(InvalidStages);
    }
    if st.strategy == Sequential && st.concurrencyLimit != 1 {
      return Err(InvalidStages);
    }
    if production && st.strategy == Parallel {
      return Err(ProductionParallel);
    }
    r := Ok(());
  }

  method ValidateStages(
    production: bool, targets: seq<Target>, drafts: seq<StageDraft>, clean: string -> string)
    returns (r: Result<seq<Stage>, PlanError>)
    ensures r.Ok? <==> PlanValid(production, targets, Staged(drafts, clean))
    ensures r.Ok? ==> r.value == Staged(drafts, clean)
    ensures r.Ok? ==> |r.value| == |drafts| && forall k :: 0 <= k < |drafts| ==>
      r.value[k] == Stage(drafts[k].id, clean(drafts[k].summary), drafts[k].targetIds, drafts[k].dependsOn,
        drafts[k].strategy, drafts[k].concurrencyLimit, StageState.Pending)
    ensures r.Err? ==> Explains(r.error, production, targets, Staged(drafts, clean))
  {
    hide StageAccepted, Breaks, Acyclic;
    ghost var planned := Staged(drafts, clean);
    StageDistinctCardinality(planned);
    if |drafts| == 0 || |drafts| > MAX_FLEET_STAGES {
      return Err(InvalidStages);
    }
    var knownTargets := set i | 0 <= i < |targets| :: targets[i].profileId;
    var knownStages := set k | 0 <= k < |drafts| :: drafts[k].id;
    assert forall k :: 0 <= k < |drafts| ==> planned[k].id == drafts[k].id;
    assert knownStages == StageIds(planned);
    if |knownStages| != |drafts| {
      return Err(InvalidStages);
    }
    var stages: seq<Stage> := [];
    for i := 0 to |drafts|
      invariant stages == planned[..i]
      invariant forall k :: 0 <= k < i ==> StageAccepted(production, targets, planned, planned[k])
    {
      var stage := StageOf(drafts[i], clean);
      var checked := CheckStage(production, knownTargets, knownStages, stage, targets, planned);
      assert planned[i] == stage;
      if checked.Err? {
        return Err(checked.error);
      }
      stages := stages + [stage];
    }
    assert stages == planned;
    var acyclic, _ := ValidateAcyclic(stages);
    AcceptedDependenciesKnown(production, targets, planned);
    if acyclic.Err? {
      return Err(acyclic.error);
    }
    r := Ok(stages);
  }

  lemma AcceptedDependenciesKnown(production: bool, targets: seq<Target>, stages: seq<Stage>)
    requires forall k :: 0 <= k < |stages| ==> StageAccepted(production, targets, stages, stages[k])
    ensures DependenciesKnown(stages)
  {
  }

  // ---- The draft -----------------------------------------------------------------------------

  ghost predicate DraftValid(request: FleetDraft, clean: string -> string) {
    TargetsValid(request.targets) && PlanValid(request.production, request.targets, Staged(request.stages, clean))
  }

  /** A draft is accepted exactly when its plan is valid; it then has valid metadata and starts no child. */
  method Draft(request: FleetDraft, clean: string -> string, id: Id, now: nat) returns (r: Result<Fleet, PlanError>)
    ensures r.Ok? <==> DraftValid(request, clean)
    ensures r.Ok? ==> Inv(r.value) && MetadataValid(r.value)
    ensures r.Ok? ==>
      var stages := Staged(request.stages, clean);
      r.value == Fleet(id, 1, RunState.Draft, request.production, request.failurePolicy, request.targets, stages, [],
        Digest(request.production, request.failurePolicy, request.targets, stages), Live, now)
  {
    hide PlanValid, TargetsValid, Explains, Inv, MetadataValid, Staged;
    var checked := ValidateTargets(request.targets);
    if checked.Err? {
      return Err(checked.error);
    }
    var stages := ValidateStages(request.production, request.targets, request.stages, clean);
    if stages.Err? {
      return Err(stages.error);
    }
    var fleet := Fleet(id, 1, RunState.Draft, request.production, request.failurePolicy, request.targets,
      stages.value, [],
      Digest(request.production, request.failurePolicy, request.targets, stages.value), Live, now);
    DraftIsSound(request, clean, fleet);
    r := Ok(fleet);
  }

  lemma DraftIsSound(request: FleetDraft, clean: string -> string, s: Fleet)
    requires DraftValid(request, clean)
    requires s.production == request.production && s.targets == request.targets && s.children == []
    requires s.stages == Staged(request.stages, clean) && s.state == RunState.Draft
    ensures Inv(s) && MetadataValid(s)
  {
    hide Acyclic, TargetsValid, StageValid;
    assert GraphValid(s.production, s.targets, s.stages);
    FreshFleetInv(s);
  }

  // ---- Stored metadata -----------------------------------------------------------------------

  method CheckStoredStage(
    production: bool, targetIds: set<Id>, stageIds: set<Id>, st: Stage,
    ghost targets: seq<Target>, ghost stages: seq<Stage>)
    returns (r: Result<(), PlanError>)
    requires forall x :: x in targetIds <==> HasTarget(targets, x)
    requires forall x :: x in stageIds <==> HasStage(stages, x)
    ensures r.Ok? <==> StageValid(targets, stages, st) && !(production && st.strategy == Parallel)
  {
    var selected := Elements(st.targetIds);
    var dependencies := Elements(st.dependsOn);
    DistinctCardinality(st.targetIds);
    DistinctCardinality(st.dependsOn);
    assert st.targetIds != [] ==> st.targetIds[0] in selected;
    if selected == {} || |selected| != |st.targetIds| || !(selected <= targetIds)
       || |dependencies| != |st.dependsOn| || st.id in dependencies || !(dependencies <= stageIds)
       || st.concurrencyLimit == 0 || st.concurrencyLimit > |st.targetIds|
       || (st.strategy == Sequential && st.concurrencyLimit != 1) {
      return Err(InvalidStages);
    }
    if production && st.strategy == Parallel {
      return Err(ProductionParallel);
    }
    r := Ok(());
  }

  ghost function KeyOf(c: Child): (Id, Id, nat) {
    (c.stageId, c.targetId, c.attempt)
  }

  /** Accepts a stored run exactly when its graph and its child rows are valid. */
  method ValidateMetadata(s: Fleet) returns (r: Result<(), PlanError>)
    ensures r.Ok? <==> MetadataValid(s)
  {
    hide TargetsValid, StageValid, Acyclic, HasStage, HasTarget, ValidCode;
    var checked := ValidateTargets(s.targets);
    if checked.Err? {
      return checked;
    }
    if s.stages == [] || |s.stages| > MAX_FLEET_STAGES {
      return Err(InvalidStages);
    }
    var targetIds := set i | 0 <= i < |s.targets| :: s.targets[i].profileId;
    var stageIds := set k | 0 <= k < |s.stages| :: s.stages[k].id;
    KnownIds(s.targets, s.stages);
    StageDistinctCardinality(s.stages);
    if |stageIds| != |s.stages| {
      return Err(InvalidStages);
    }
    for k := 0 to |s.stages|
      invariant forall i :: 0 <= i < k ==> StageValid(s.targets, s.stages, s.stages[i])
      invariant s.production ==> forall i :: 0 <= i < k ==> s.stages[i].strategy != Parallel
    {
      var stage := CheckStoredStage(s.production, targetIds, stageIds, s.stages[k], s.targets, s.stages);
      if stage.Err? {
        return stage;
      }
    }
    var acyclic, _ := ValidateAcyclic(s.stages);
    ValidDependenciesKnown(s.targets, s.stages);
    if acyclic.Err? {
      return acyclic;
    }
    r := ValidateChildren(s, targetIds, stageIds);
  }

  lemma KnownIds(targets: seq<Target>, stages: seq<Stage>)
    ensures forall x :: x in (set i | 0 <= i < |targets| :: targets[i].profileId) <==> HasTarget(targets, x)
    ensures forall x :: x in StageIds(stages) <==> HasStage(stages, x)
  {
  }

  lemma ValidDependenciesKnown(targets: seq<Target>, stages: seq<Stage>)
    requires forall k :: 0 <= k < |stages| ==> StageValid(targets, stages, stages[k])
    ensures DependenciesKnown(stages)
  {
  }

  method ValidateChildren(s: Fleet, targetIds: set<Id>, stageIds: set<Id>) returns (r: Result<(), PlanError>)
    requires forall x :: x in targetIds <==> HasTarget(s.targets, x)
    requires forall x :: x in stageIds <==> HasStage(s.stages, x)
    ensures r.Ok? <==>
      && (forall i :: 0 <= i < |s.children| ==> ChildValid(s.targets, s.stages, s.children[i]))
      && DistinctChildKeys(s.children)
  {
    hide HasStage, HasTarget, ValidCode;
    var childKeys: set<(Id, Id, nat)> := {};
    for n := 0 to |s.children|
      invariant forall i :: 0 <= i < n ==> ChildValid(s.targets, s.stages, s.children[i])
      invariant forall i :: 0 <= i < n ==> KeyOf(s.children[i]) in childKeys
      invariant forall x :: x in childKeys ==> exists i :: 0 <= i < n && KeyOf(s.children[i]) == x
      invariant forall i, j :: 0 <= i < j < n ==> KeyOf(s.children[i]) != KeyOf(s.children[j])
    {
      var c := s.children[n];
      var key := (c.stageId, c.targetId, c.attempt);
      if c.stageId !in stageIds || c.targetId !in targetIds || c.attempt == 0 || key in childKeys
         || (c.errorCode.Some? && !ValidCode(c.errorCode.value)) {
        return Err(InvalidStages);
      }
      childKeys := childKeys + {key};
    }
    forall i, j | 0 <= i < j < |s.children|
      ensures !(SamePair(s.children[i], s.children[j]) && s.children[i].attempt == s.children[j].attempt)
    {
      assert KeyOf(s.children[i]) != KeyOf(s.children[j]);
    }
    r := Ok(());
  }
}
