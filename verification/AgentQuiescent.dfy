/**
 Runs whose crashes fall between controller methods, and whose approvals arrive through the service's
 guard: the cursor is exact, at most one approval is pending, every approval is announced, and no
 command is executed that overlaps an earlier one.
 */
module AgentQuiescent {
  import opened Basics
  import opened AgentModel
  import opened AgentSafety
  import opened AgentRuns
  import opened AgentGuarantees
  import opened AgentRepeats

  /** The process dies only between methods. */
  predicate Settled(s: System) {
    s.memory.Some? ==> s.memory.value.pc == Idle && !s.memory.value.unsaved
  }

  /** The service passes on a decision only on the approval it finds pending. */
  predicate Guarded(s: System, step: Label) {
    match step
    case Approve(a, _) => a in s.approvals && s.approvals[a].state == Pending
    case Reject(a) => a in s.approvals && s.approvals[a].state == Pending
    case Crash => Settled(s)
    case _ => true
  }

  ghost predicate QuietRun(overlap: Overlap, states: seq<System>, labels: seq<Label>) {
    Run(overlap, states, labels) && forall n :: 0 <= n < |labels| ==> Guarded(states[n], labels[n])
  }

  // ---- The invariant ---------------------------------------------------------------------------

  ghost predicate Exact(s: System) {
    match s.memory
    case None => s.row.cursor == |s.log| + 1
    case Some(m) =>
      m.next == |s.log| + 1 && m.state == s.row.state && s.row.cursor == if m.unsaved then |s.log| else |s.log| + 1
  }

  predicate Waits(state: AgentState) {
    state == AwaitingApproval || state.IsTerminal()
  }

  /** Whether an approval may be pending at this point of a method. */
  predicate MayWait(s: System) {
    match s.memory
    case None => Waits(s.row.state)
    case Some(m) =>
      match m.pc
      case Idle => Waits(m.state)
      case Inserted(_, _) => true
      case Announced(_, _) => true
      case CallInserted(_, _) => true
      case CallStored(_, _) => true
      case Swept(_) => m.state.IsTerminal()
      case _ => false
  }

  ghost predicate OnePending(s: System) {
    && (forall a, b | a in s.approvals && b in s.approvals
         && s.approvals[a].state == Pending && s.approvals[b].state == Pending :: a == b)
    && (!MayWait(s) ==> NonePending(s.approvals))
    && (s.memory.Some? && s.memory.value.pc.Swept? ==> s.memory.value.state.IsTerminal())
  }

  /** Every command approval is in the log, except while it is being announced. */
  ghost predicate AllAnnounced(s: System) {
    forall a :: a in s.approvals && !s.approvals[a].isCall && !Announcing(s, a) ==>
      Has(s.log, CommandApprovalRequired(a, s.approvals[a].actionId))
  }

  lemma EmitExact(s: System, m: Memory, event: Event, pc: Pc)
    requires Numbered(s.log) && m.next == |s.log| + 1
    ensures Emit(s, m, event, pc) ==
      s.(log := s.log + [Entry(|s.log| + 1, event)],
         memory := Some(m.(next := |s.log| + 2, unsaved := true, pc := pc)))
  {
  }

  // ---- The cursor ------------------------------------------------------------------------------

  /** One write: an event, or the row, or neither, and the state changes only with the row. */
  predicate Wrote(s: System, t: System) {
    s.memory.Some? && t.memory.Some? &&
    var m, n := s.memory.value, t.memory.value;
    if t.log == s.log then
      && n.next == m.next && n.unsaved == m.unsaved
      && ((t.row == s.row && n.state == m.state) || (!m.unsaved && t.row == Row(n.state, n.next)))
    else
      && |t.log| == |s.log| + 1 && n.next == m.next + 1 && n.unsaved && !m.unsaved
      && t.row == s.row && n.state == m.state
  }

  /** With an exact cursor a write that logs an event appends it and does nothing else. */
  lemma AdvanceEmits(overlap: Overlap, s: System, m: Memory)
    requires Numbered(s.log) && m.next == |s.log| + 1
    requires s.memory == Some(m) && !m.unsaved && Advanced(overlap, s, m).Some? && Emission(m).Some?
    ensures var (event, pc) := Emission(m).value;
      Advanced(overlap, s, m).value ==
        s.(log := s.log + [Entry(|s.log| + 1, event)],
           memory := Some(Told(m).(next := |s.log| + 2, unsaved := true, pc := pc)))
  {
    hide Advanced, Emission, Numbered, Emit;
    AdvanceIsEmit(overlap, s, m);
    EmitExact(s, Told(m), Emission(m).value.0, Emission(m).value.1);
  }

  lemma AdvanceWrote(overlap: Overlap, s: System, m: Memory)
    requires Numbered(s.log) && m.next == |s.log| + 1
    requires s.memory == Some(m) && !m.unsaved && Advanced(overlap, s, m).Some?
    ensures Wrote(s, Advanced(overlap, s, m).value)
  {
    hide Advanced, Emission, Numbered;
    if Emission(m).Some? {
      AdvanceEmits(overlap, s, m);
    } else {
      AdvanceWrites(overlap, s, m);
    }
  }

  lemma WroteKeepsExact(s: System, t: System)
    requires Exact(s) && Wrote(s, t)
    ensures Exact(t)
  {
  }

  lemma StepExact(overlap: Overlap, s: System, step: Label)
    requires Numbered(s.log) && Exact(s) && Guarded(s, step) && Step(overlap, s, step).Some?
    ensures Exact(Step(overlap, s, step).value)
  {
    hide Extract, Finished, NonePending, Valid, Advanced, LastSequence, Numbered, Decidable;
    LastIsCount(s.log);
    if step.Advance? && s.memory.Some? && !s.memory.value.unsaved {
      AdvanceWrote(overlap, s, s.memory.value);
      WroteKeepsExact(s, Advanced(overlap, s, s.memory.value).value);
    }
  }

  // ---- At most one pending approval --------------------------------------------------------------

  /** Approvals untouched, and no less reason to wait. */
  predicate StillWaits(s: System, t: System) {
    && t.approvals == s.approvals
    && (MayWait(s) ==> MayWait(t))
    && (t.memory.Some? && t.memory.value.pc.Swept? ==> t.memory.value.state.IsTerminal())
  }

  lemma StillWaitsKeeps(s: System, t: System)
    requires OnePending(s) && StillWaits(s, t)
    ensures OnePending(t)
  {
  }

  lemma AdvanceWaits(overlap: Overlap, s: System, m: Memory)
    requires s.memory == Some(m) && !m.unsaved && Advanced(overlap, s, m).Some?
    requires Numbered(s.log) && m.next == |s.log| + 1
    requires m.pc.Swept? ==> m.state.IsTerminal()
    requires !m.pc.Stored? && !m.pc.CallAnnounced?
    ensures StillWaits(s, Advanced(overlap, s, m).value)
  {
    hide Similar, NeedsVerification, Numbered, Outcome, Denial, Emit;
    if Emission(m).Some? {
      hide Advanced;
      AdvanceEmits(overlap, s, m);
    }
  }

  lemma AdvanceOnePending(overlap: Overlap, s: System, m: Memory)
    requires Numbered(s.log) && Exact(s) && OnePending(s)
    requires s.memory == Some(m) && !m.unsaved && Advanced(overlap, s, m).Some?
    ensures OnePending(Advanced(overlap, s, m).value)
  {
    if !m.pc.Stored? && !m.pc.CallAnnounced? {
      hide Advanced, Numbered;
      AdvanceWaits(overlap, s, m);
      StillWaitsKeeps(s, Advanced(overlap, s, m).value);
    }
  }

  lemma DecidedOnePending(s: System, t: System, a: Id, to: RequestState)
    requires OnePending(s) && a in s.approvals && s.approvals[a].state == Pending && to != Pending
    requires t.approvals == s.approvals[a := s.approvals[a].(state := to)]
    requires t.memory.Some? && (t.memory.value.pc.Swept? ==> t.memory.value.state.IsTerminal())
    ensures OnePending(t) && NonePending(t.approvals)
  {
  }

  lemma StepOnePending(overlap: Overlap, s: System, step: Label)
    requires Numbered(s.log) && Exact(s) && OnePending(s) && Guarded(s, step) && Step(overlap, s, step).Some?
    ensures OnePending(Step(overlap, s, step).value)
  {
    hide Extract, Finished, Valid, Advanced, Numbered, OnePending, NonePending, LastSequence;
    LastIsCount(s.log);
    var t := Step(overlap, s, step).value;
    match step
    case Advance => AdvanceOnePending(overlap, s, s.memory.value);
    case Approve(a, _) => DecidedOnePending(s, t, a, t.approvals[a].state);
    case Reject(a) => DecidedOnePending(s, t, a, Rejected);
    case Sweep(a) => DecidedOnePending(s, t, a, Invalidated);
    case Reopen => NoneIsOne(t);
    case _ =>
      StillWaitsOtherwise(overlap, s, step);
      StillWaitsKeeps(s, t);
  }

  lemma NoneIsOne(t: System)
    requires NonePending(t.approvals) && t.memory.Some? && t.memory.value.pc == Idle
    ensures OnePending(t)
  {
  }

  lemma StillWaitsOtherwise(overlap: Overlap, s: System, step: Label)
    requires Numbered(s.log) && Exact(s) && OnePending(s) && Guarded(s, step) && Step(overlap, s, step).Some?
    requires !step.Advance? && !step.Approve? && !step.Reject? && !step.Sweep? && !step.Reopen?
    ensures StillWaits(s, Step(overlap, s, step).value)
  {
    hide Extract, Finished, Valid, Advanced, Numbered, NonePending, LastSequence;
    LastIsCount(s.log);
  }

  // ---- Announcements -------------------------------------------------------------------------------

  lemma AnnouncementsGrow(s: System, t: System)
    requires AllAnnounced(s) && s.log <= t.log
    requires forall a :: a in t.approvals && !t.approvals[a].isCall && !Announcing(t, a) ==>
      (a in s.approvals && t.approvals[a] == s.approvals[a].(state := t.approvals[a].state) && !Announcing(s, a))
      || Has(t.log, CommandApprovalRequired(a, t.approvals[a].actionId))
    ensures AllAnnounced(t)
  {
  }

  lemma AdvanceAnnounced(overlap: Overlap, s: System, m: Memory)
    requires Numbered(s.log) && Exact(s) && AllAnnounced(s) && PcOk(s, m)
    requires s.memory == Some(m) && !m.unsaved && Advanced(overlap, s, m).Some?
    ensures AllAnnounced(Advanced(overlap, s, m).value)
  {
    hide Similar, NeedsVerification, Numbered, Outcome, Denial, Recorded, Has, Extract, WasExecuted, Unused, Emit,
      AllAnnounced, Exact;
    var t := Advanced(overlap, s, m).value;
    AdvanceEffect(overlap, s, m);
    if m.pc.Inserted? {
      AdvanceEmits(overlap, s, m);
      var e := Entry(|s.log| + 1, CommandApprovalRequired(m.pc.a, m.pc.x.id));
      HasAppend(s.log, e, e.event);
    }
    AnnouncementsGrow(s, t);
  }

  lemma StepAnnounced(overlap: Overlap, s: System, step: Label)
    requires Safe(s) && Exact(s) && AllAnnounced(s) && Guarded(s, step) && Step(overlap, s, step).Some?
    ensures AllAnnounced(Step(overlap, s, step).value)
  {
    hide Extract, Finished, Valid, Advanced, Ids, Executions, StartsGranted, CompletionsVerified, Numbered, Recorded,
      PcOk, Has, NonePending, Emit, Recovered, AllAnnounced, Exact;
    var t := Step(overlap, s, step).value;
    if step.Advance? {
      AdvanceAnnounced(overlap, s, s.memory.value);
    } else {
      StepGrowsLog(overlap, s, step);
      AnnouncementsGrow(s, t);
    }
  }

  // ---- No command twice ------------------------------------------------------------------------------

  /** The executed action whose outcome is not in the log yet. */
  function Telling(s: System): (x: Option<Action>) {
    match s.memory
    case None => None
    case Some(m) =>
      match m.pc
      case Executed(x, _) => Some(x)
      case Observed(x, _) => Some(x)
      case _ => None
  }

  /** No executed command overlaps an earlier one, and none that the log tells of can be repeated. */
  ghost predicate NothingRepeated(overlap: Overlap, s: System) {
    && (forall i, j :: 0 <= i < j < |s.executed| && !s.executed[i].isCall && !s.executed[j].isCall ==>
         !overlap(s.executed[j].text, s.executed[i].text))
    && (forall i :: 0 <= i < |s.executed| && !s.executed[i].isCall && Telling(s) != Some(s.executed[i]) ==>
         !Repeatable(overlap, s, s.executed[i].text))
  }

  lemma StepTells(overlap: Overlap, s: System, step: Label)
    requires Guarded(s, step) && Step(overlap, s, step).Some?
    ensures var t := Step(overlap, s, step).value;
      || Telling(t) == Telling(s) || Telling(s).None?
      || (step.Advance? && s.memory.Some? && s.memory.value.pc.Observed? && !s.memory.value.unsaved)
  {
    hide Extract, Finished, Valid, NonePending, Recovered, Emit, Advanced;
    if step.Advance? && s.memory.Some? && !s.memory.value.unsaved && s.memory.value.pc.Executed? {
      AdvanceTells(overlap, s, s.memory.value);
    }
  }

  lemma AdvanceTells(overlap: Overlap, s: System, m: Memory)
    requires s.memory == Some(m) && m.pc.Executed? && Advanced(overlap, s, m).Some?
    ensures Telling(Advanced(overlap, s, m).value) == Telling(s)
  {
  }

  /** What a step executes is told next. */
  lemma ExecutedIsTold(overlap: Overlap, s: System, step: Label)
    requires Step(overlap, s, step).Some? && Step(overlap, s, step).value.executed != s.executed
    ensures var t := Step(overlap, s, step).value;
      Telling(s).None? && Telling(t).Some? && t.executed == s.executed + [Telling(t).value]
  {
    hide Extract, Finished, Valid, NonePending, Recovered, Decidable, Emit, Advanced;
    if step.Advance? && s.memory.Some? && !s.memory.value.unsaved {
      AdvanceEffect(overlap, s, s.memory.value);
    }
  }

  lemma ToldIsSettled(overlap: Overlap, s: System, m: Memory)
    requires Sound(overlap, s) && OnePending(s)
    requires s.memory == Some(m) && !m.unsaved && m.pc.Observed? && !m.pc.x.isCall
    ensures Advanced(overlap, s, m).Some? && !Repeatable(overlap, Advanced(overlap, s, m).value, m.pc.x.text)
  {
    hide Sound, Advanced, Repeatable;
    OutcomeSettles(overlap, s, m);
  }

  lemma StepNothingRepeated(overlap: Overlap, s: System, step: Label)
    requires Sound(overlap, s) && OnePending(s) && NothingRepeated(overlap, s)
    requires Guarded(s, step) && Step(overlap, s, step).Some?
    ensures NothingRepeated(overlap, Step(overlap, s, step).value)
  {
    hide Step, Sound, OnePending, Guarded, Repeatable, Telling;
    var t := Step(overlap, s, step).value;
    StepTells(overlap, s, step);
    if t.executed != s.executed {
      ExecutedIsTold(overlap, s, step);
    }
    forall i, j | 0 <= i < j < |t.executed| && !t.executed[i].isCall && !t.executed[j].isCall
      ensures !overlap(t.executed[j].text, t.executed[i].text)
    {
      if j == |s.executed| && overlap(t.executed[j].text, t.executed[i].text) {
        StepExecutes(overlap, s, step, t.executed[j], t.executed[i].text);
      }
    }
    forall i | 0 <= i < |t.executed| && !t.executed[i].isCall && Telling(t) != Some(t.executed[i])
      ensures !Repeatable(overlap, t, t.executed[i].text)
    {
      if Telling(s) == Some(t.executed[i]) {
        AdvanceTold(overlap, s, step);
      } else if Repeatable(overlap, t, t.executed[i].text) {
        StepRepeatable(overlap, s, step, t.executed[i].text);
      }
    }
  }

  lemma AdvanceTold(overlap: Overlap, s: System, step: Label)
    requires Sound(overlap, s) && OnePending(s) && step.Advance? && Step(overlap, s, step).Some?
    requires s.memory.Some? && s.memory.value.pc.Observed? && !s.memory.value.unsaved && Telling(s).Some?
    ensures !Telling(s).value.isCall ==> !Repeatable(overlap, Step(overlap, s, step).value, Telling(s).value.text)
  {
    hide Advanced, Sound, Repeatable, OnePending;
    if !Telling(s).value.isCall {
      ToldIsSettled(overlap, s, s.memory.value);
    }
  }

  // ---- Quiet runs --------------------------------------------------------------------------------------

  ghost predicate Calm(overlap: Overlap, s: System) {
    && Sound(overlap, s) && Exact(s) && OnePending(s) && AllAnnounced(s) && NothingRepeated(overlap, s)
  }

  lemma StepCalm(overlap: Overlap, s: System, step: Label)
    requires Calm(overlap, s) && Guarded(s, step) && Step(overlap, s, step).Some?
    ensures Calm(overlap, Step(overlap, s, step).value)
  {
    hide Step, Guarded, Exact, OnePending, AllAnnounced, NothingRepeated, Safe, Steady;
    StepSound(overlap, s, step);
    SafeNumbered(s);
    StepExact(overlap, s, step);
    StepOnePending(overlap, s, step);
    StepAnnounced(overlap, s, step);
    StepNothingRepeated(overlap, s, step);
  }

  lemma {:induction false} QuietRunCalm(overlap: Overlap, states: seq<System>, labels: seq<Label>, n: nat)
    requires QuietRun(overlap, states, labels) && n < |states|
    ensures Calm(overlap, states[n])
  {
    hide Calm, Step, Guarded;
    if n == 0 {
      InitialCalm(overlap, states[0].supply);
    } else {
      QuietRunCalm(overlap, states, labels, n - 1);
      assert Step(overlap, states[n - 1], labels[n - 1]) == Some(states[n]);
      StepCalm(overlap, states[n - 1], labels[n - 1]);
    }
  }

  lemma InitialCalm(overlap: Overlap, supply: nat)
    ensures Calm(overlap, Initial(supply))
  {
  }

  /** Between methods the persisted cursor is one past the log. */
  lemma CursorExact(overlap: Overlap, states: seq<System>, labels: seq<Label>, n: nat)
    requires QuietRun(overlap, states, labels) && n < |states| && Settled(states[n])
    ensures states[n].row.cursor == |states[n].log| + 1
    ensures states[n].memory.Some? ==> states[n].memory.value.next == states[n].row.cursor
  {
    hide QuietRun;
    QuietRunCalm(overlap, states, labels, n);
  }

  /** At most one approval of the run is pending at any time. */
  lemma AtMostOnePending(overlap: Overlap, states: seq<System>, labels: seq<Label>, n: nat, a: Id, b: Id)
    requires QuietRun(overlap, states, labels) && n < |states|
    requires a in states[n].approvals && states[n].approvals[a].state == Pending
    requires b in states[n].approvals && states[n].approvals[b].state == Pending
    ensures a == b
  {
    hide QuietRun;
    QuietRunCalm(overlap, states, labels, n);
  }

  /** No executed command overlaps an earlier one, across turns and rehydration. */
  lemma NoRedundantExecution(overlap: Overlap, states: seq<System>, labels: seq<Label>, n: nat, i: nat, j: nat)
    requires QuietRun(overlap, states, labels) && n < |states| && i < j < |states[n].executed|
    requires !states[n].executed[i].isCall && !states[n].executed[j].isCall
    ensures !overlap(states[n].executed[j].text, states[n].executed[i].text)
  {
    hide QuietRun;
    QuietRunCalm(overlap, states, labels, n);
  }

  /** Every start of a command follows the announcement, then the grant, of its approval. */
  lemma EveryStartAnnounced(overlap: Overlap, states: seq<System>, labels: seq<Label>, n: nat, a: Id)
    requires QuietRun(overlap, states, labels) && n < |labels|
    requires labels[n].Approve? && labels[n].a == a && !states[n].approvals[a].isCall
    ensures a in states[n].approvals
    ensures Has(states[n].log, CommandApprovalRequired(a, states[n].approvals[a].actionId))
  {
    hide Step;
    QuietRunCalm(overlap, states, labels, n);
    assert Step(overlap, states[n], labels[n]) == Some(states[n + 1]);
    ApproveIsIdle(overlap, states[n], labels[n]);
  }

  lemma ApproveIsIdle(overlap: Overlap, s: System, step: Label)
    requires step.Approve? && Step(overlap, s, step).Some?
    ensures step.a in s.approvals && !Announcing(s, step.a)
  {
  }
}
