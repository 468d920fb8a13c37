/** Every step keeps the safety invariant, and what that means for whole runs with crashes anywhere. */
module AgentRuns {
  import opened Basics
  import opened AgentModel
  import opened AgentSafety

  type Overlap = (string, string) -> bool

  // ---- The writes of a method ------------------------------------------------------------------

  lemma AskingKeeps(overlap: Overlap, s: System, m: Memory)
    requires Safe(s) && s.memory == Some(m) && !m.unsaved
    requires m.pc.Proposed? || m.pc.Stored? || m.pc.Inserted? || m.pc.Announced?
    requires Advanced(overlap, s, m).Some?
    ensures Safe(Advanced(overlap, s, m).value)
  {
    hide StartsGranted, CompletionsVerified, Extract, Numbered, Executions, WasExecuted, Similar;
    var t := Advanced(overlap, s, m).value;
    match m.pc
    case Proposed(x) =>
      PendingKeepsBase(s, t);
      PcOfTables(s, t, m);
    case Stored(x) =>
      InsertKeepsBase(s, t, x);
    case Inserted(x, a) =>
      EmitPlain(s, m, CommandApprovalRequired(a, x.id), Announced(x, a));
    case Announced(x, a) =>
      TransitKeeps(s, m, AwaitingApproval, Idle);
  }

  lemma AskingCallKeeps(overlap: Overlap, s: System, m: Memory)
    requires Safe(s) && s.memory == Some(m) && !m.unsaved
    requires m.pc.CallAnnounced? || m.pc.CallInserted? || m.pc.CallStored?
    requires Advanced(overlap, s, m).Some?
    ensures Safe(Advanced(overlap, s, m).value)
  {
    hide StartsGranted, CompletionsVerified, Extract, Numbered, Executions, WasExecuted;
    var t := Advanced(overlap, s, m).value;
    match m.pc
    case CallAnnounced(x) =>
      InsertKeepsBase(s, t, x);
    case CallInserted(x, a) =>
      PendingKeepsBase(s, t);
      PcOfTables(s, t, m);
    case CallStored(x, a) =>
      TransitKeeps(s, m, AwaitingApproval, Idle);
  }

  lemma RemoveKeeps(s: System, m: Memory, id: Id, pc: Pc)
    requires Safe(s) && s.memory == Some(m)
    requires PcOk(s, m.(pc := pc))
    ensures Safe(s.(pending := s.pending - {id}, memory := Some(m.(pc := pc))))
  {
    hide StartsGranted, CompletionsVerified, Extract, Numbered, Executions, WasExecuted, PcOk, Ids;
    var t := s.(pending := s.pending - {id}, memory := Some(m.(pc := pc)));
    PendingRestricted(s, t, id);
    PcOfTables(s, t, m.(pc := pc));
  }

  lemma PendingRestricted(s: System, t: System, id: Id)
    requires Base(s) && t == s.(pending := s.pending - {id}, memory := t.memory)
    ensures Base(t)
  {
  }

  lemma GrantingKeeps(overlap: Overlap, s: System, m: Memory)
    requires Safe(s) && s.memory == Some(m) && !m.unsaved
    requires m.pc.GrantSaved? || m.pc.GrantHalf?
    requires Advanced(overlap, s, m).Some?
    ensures Safe(Advanced(overlap, s, m).value)
  {
    hide Base, Extract, WasExecuted, Has, Recorded;
    var a := m.pc.a;
    var x := m.pc.x;
    var e := Entry(|s.log| + 1, ApprovalGranted(a));
    HasAppend(s.log, e, ApprovalGranted(a));
    GrowingLog(s, e, x);
    if m.pc.GrantSaved? == x.isCall {
      EmitPlain(s, m, ApprovalGranted(a), if x.isCall then GrantHalf(x, a) else GrantDone(x, a));
    } else {
      RemoveKeeps(s, m, x.id, if x.isCall then GrantDone(x, a) else GrantHalf(x, a));
    }
  }

  /** What is recorded and what is executed, in a log grown by an event that proposes nothing. */
  lemma GrowingLog(s: System, e: Entry, x: Action)
    requires !e.event.CommandProposed?
    ensures Recorded(s.log, x) ==> Recorded(s.log + [e], x)
    ensures WasExecuted(s.(log := s.log + [e]), x.id) <==> WasExecuted(s, x.id)
  {
  }

  lemma StartingKeeps(overlap: Overlap, s: System, m: Memory)
    requires Safe(s) && s.memory == Some(m) && !m.unsaved
    requires m.pc.GrantDone? || m.pc.ReadyToStart?
    requires Advanced(overlap, s, m).Some?
    ensures Safe(Advanced(overlap, s, m).value)
  {
    hide Extract, WasExecuted, Has, Recorded, Ids, Executions, Numbered, StartsGranted, CompletionsVerified;
    var a := m.pc.a;
    var x := m.pc.x;
    match m.pc
    case GrantDone(_, _) =>
      TransitKeeps(s, m, Acting, ReadyToStart(x, a));
    case ReadyToStart(_, _) =>
      var event := if x.isCall then ToolStarted(x.id) else CommandStarted(x.id);
      var e := Entry(|s.log| + 1, event);
      GrowingLog(s, e, x);
      ReadAppend(s.log, e, 0);
      assert s.log[..|s.log|] == s.log;
      EmitKeeps(s, m, event, Started(x, a), a);
  }

  lemma ReportingKeeps(overlap: Overlap, s: System, m: Memory)
    requires Safe(s) && s.memory == Some(m) && !m.unsaved
    requires m.pc.Executed? || m.pc.Observed?
    requires Advanced(overlap, s, m).Some?
    ensures Safe(Advanced(overlap, s, m).value)
  {
    hide Extract, Recorded, Ids, Executions, Numbered, StartsGranted, CompletionsVerified;
    var x, success := m.pc.x, m.pc.success;
    match m.pc
    case Executed(_, _) =>
      TransitKeeps(s, m, Observing, Observed(x, success));
    case Observed(_, _) =>
      var told := m.(
        verification := NeedsVerification(x, success, m.verification),
        priors := if x.isCall then m.priors else m.priors + [x.text]);
      var e := Entry(|s.log| + 1, Outcome(x, success));
      OutcomeReplays(s.log, x, success, e);
      EmitKeeps(s, told, Outcome(x, success), Idle, 0);
  }

  lemma DenyingKeeps(overlap: Overlap, s: System, m: Memory)
    requires Safe(s) && s.memory == Some(m) && !m.unsaved
    requires m.pc.DenySaved? || m.pc.DenyRemoved? || m.pc.DenyLogged?
    requires Advanced(overlap, s, m).Some?
    ensures Safe(Advanced(overlap, s, m).value)
  {
    hide Base, Extract, WasExecuted, Has, Recorded, Emit, Transit, Bound, Unused;
    match m.pc
    case DenySaved(x, a, to) => RemoveKeeps(s, m, x.id, DenyRemoved(a, to));
    case DenyRemoved(a, to) => EmitPlain(s, m, Denial(a, to), DenyLogged);
    case DenyLogged => TransitKeeps(s, m, Reasoning, Idle);
  }

  lemma FinishingKeeps(overlap: Overlap, s: System, m: Memory)
    requires Safe(s) && s.memory == Some(m) && !m.unsaved
    requires m.pc.Swept? || m.pc.Finishing?
    ensures Advanced(overlap, s, m).Some? && Safe(Advanced(overlap, s, m).value)
  {
    hide Base, Extract, WasExecuted, Has, Recorded, Emit, Transit, Bound, Unused;
    match m.pc
    case Swept(a) => EmitPlain(s, m, ApprovalInvalidated(a), Idle);
    case Finishing =>
      ReadAppend(s.log, Entry(|s.log| + 1, RunCompleted), 0);
      EmitKeeps(s, m, RunCompleted, Idle, 0);
  }

  lemma AdvanceKeeps(overlap: Overlap, s: System, m: Memory)
    requires Safe(s) && s.memory == Some(m) && !m.unsaved
    requires Advanced(overlap, s, m).Some?
    ensures Safe(Advanced(overlap, s, m).value)
  {
    match m.pc
    case Proposed(_) => AskingKeeps(overlap, s, m);
    case Stored(_) => AskingKeeps(overlap, s, m);
    case Inserted(_, _) => AskingKeeps(overlap, s, m);
    case Announced(_, _) => AskingKeeps(overlap, s, m);
    case CallAnnounced(_) => AskingCallKeeps(overlap, s, m);
    case CallInserted(_, _) => AskingCallKeeps(overlap, s, m);
    case CallStored(_, _) => AskingCallKeeps(overlap, s, m);
    case GrantSaved(_, _) => GrantingKeeps(overlap, s, m);
    case GrantHalf(_, _) => GrantingKeeps(overlap, s, m);
    case GrantDone(_, _) => StartingKeeps(overlap, s, m);
    case ReadyToStart(_, _) => StartingKeeps(overlap, s, m);
    case Executed(_, _) => ReportingKeeps(overlap, s, m);
    case Observed(_, _) => ReportingKeeps(overlap, s, m);
    case DenySaved(_, _, _) => DenyingKeeps(overlap, s, m);
    case DenyRemoved(_, _) => DenyingKeeps(overlap, s, m);
    case DenyLogged => DenyingKeeps(overlap, s, m);
    case Swept(_) => FinishingKeeps(overlap, s, m);
    case Finishing => FinishingKeeps(overlap, s, m);
    case _ =>
  }

  // ---- Decisions, execution and the process ------------------------------------------------------

  lemma DecisionKeeps(s: System, m: Memory, a: Id, to: RequestState, pc: Pc)
    requires Safe(s) && s.memory == Some(m) && a in s.approvals && to != Pending
    requires pc == Swept(a) || (exists x :: pc == DenySaved(x, a, to))
    ensures Safe(Decided(s, m, a, to, pc))
  {
    hide Extract, Recorded, Ids, Executions, Numbered, StartsGranted, CompletionsVerified;
    DecideKeepsBase(s, Decided(s, m, a, to, pc), a, to);
  }

  lemma GrantKeeps(s: System, m: Memory, a: Id, matches: bool)
    requires Safe(s) && s.memory == Some(m) && Decidable(s, m, a)
    requires Valid(s.approvals[a], s.pending[s.approvals[a].actionId], matches)
    ensures Safe(Decided(s, m, a, Granted, GrantSaved(s.pending[s.approvals[a].actionId], a)))
  {
    hide Extract, Recorded, Numbered, StartsGranted, CompletionsVerified;
    var x := s.pending[s.approvals[a].actionId];
    var t := Decided(s, m, a, Granted, GrantSaved(x, a));
    DecideKeepsBase(s, t, a, Granted);
    assert WasExecuted(t, x.id) <==> WasExecuted(s, x.id);
  }

  lemma ExecuteKeeps(s: System, m: Memory, success: bool)
    requires Safe(s) && s.memory == Some(m) && m.pc.Started?
    ensures Safe(s.(executed := s.executed + [m.pc.x], memory := Some(m.(pc := Executed(m.pc.x, success)))))
  {
    hide Extract, Recorded, Numbered, StartsGranted, CompletionsVerified, Ids, Executions;
    var t := s.(executed := s.executed + [m.pc.x], memory := Some(m.(pc := Executed(m.pc.x, success))));
    ExecuteKeepsBase(s, t, m.pc.x, m.pc.a);
  }

  lemma OtherDrivenKeeps(overlap: Overlap, s: System, m: Memory, step: Label)
    requires Safe(s) && s.memory == Some(m)
    requires m.unsaved || step.Attempt? || step.Move? || step.Drop? || step.Reopen? || step.Complete? || step.Detach?
    requires Driven(overlap, s, m, step).Some?
    ensures Safe(Driven(overlap, s, m, step).value)
  {
    hide Extract, Recorded, Numbered, StartsGranted, CompletionsVerified, Ids, Executions;
    var t := Driven(overlap, s, m, step).value;
    if m.unsaved || step.Attempt? || step.Drop? || step.Detach? {
      SameBase(s, t);
      if t.memory.Some? {
        assert t.memory.value.pc == m.pc || t.memory.value.pc == Idle;
        PcSame(s, t, m);
        IdleOk(t, t.memory.value.(pc := Idle));
      }
    } else if step.Move? {
      TransitKeeps(s, m, step.next, Idle);
    } else if step.Reopen? {
      TransitKeeps(s, m, Reasoning, Idle);
    } else {
      TransitKeeps(s, m, Completed, Finishing);
    }
  }

  lemma DrivenKeeps(overlap: Overlap, s: System, m: Memory, step: Label)
    requires Safe(s) && s.memory == Some(m) && Driven(overlap, s, m, step).Some?
    ensures Safe(Driven(overlap, s, m, step).value)
  {
    hide Safe, Emit, Transit, Decided, Advanced, NonePending;
    if m.unsaved {
      OtherDrivenKeeps(overlap, s, m, step);
      return;
    }
    match step
    case Note(tag) => NoteKeeps(s, m, tag);
    case Propose(text, mutability) => ProposeKeeps(s, m, text, mutability);
    case ProposeCall(text) => ProposeCallKeeps(s, m, text);
    case Advance => AdvanceKeeps(overlap, s, m);
    case Approve(a, matches) =>
      var x := s.pending[s.approvals[a].actionId];
      if Valid(s.approvals[a], x, matches) {
        GrantKeeps(s, m, a, matches);
      } else {
        DecisionKeeps(s, m, a, Invalidated, DenySaved(x, a, Invalidated));
      }
    case Reject(a) => DecisionKeeps(s, m, a, Rejected, DenySaved(s.pending[s.approvals[a].actionId], a, Rejected));
    case Execute(success) => ExecuteKeeps(s, m, success);
    case Sweep(a) => DecisionKeeps(s, m, a, Invalidated, Swept(a));
    case _ => OtherDrivenKeeps(overlap, s, m, step);
  }

  lemma StepKeeps(overlap: Overlap, s: System, step: Label)
    requires Safe(s) && Step(overlap, s, step).Some?
    ensures Safe(Step(overlap, s, step).value)
  {
    hide Extract, Recorded, Numbered, StartsGranted, CompletionsVerified, Ids, Executions, Driven, PcOk, Finished;
    var t := Step(overlap, s, step).value;
    if !step.Crash? && s.memory.Some? {
      DrivenKeeps(overlap, s, s.memory.value, step);
    } else {
      SameBase(s, t);
      if t.memory.Some? {
        IdleOk(t, t.memory.value);
      }
    }
  }

  lemma InitialSafe(supply: nat)
    ensures Safe(Initial(supply))
  {
  }

  lemma {:induction false} RunSafe(overlap: Overlap, states: seq<System>, labels: seq<Label>, n: nat)
    requires Run(overlap, states, labels) && n < |states|
    ensures Safe(states[n])
  {
    hide Safe, Step;
    if n == 0 {
      InitialSafe(states[0].supply);
    } else {
      RunSafe(overlap, states, labels, n - 1);
      assert Step(overlap, states[n - 1], labels[n - 1]) == Some(states[n]);
      StepKeeps(overlap, states[n - 1], labels[n - 1]);
    }
  }

  lemma Extend(overlap: Overlap, states: seq<System>, labels: seq<Label>, step: Label, t: System)
    requires Run(overlap, states, labels) && Step(overlap, states[|labels|], step) == Some(t)
    ensures Run(overlap, states + [t], labels + [step])
  {
  }

  lemma RunLength(overlap: Overlap, states: seq<System>, labels: seq<Label>)
    requires Run(overlap, states, labels)
    ensures |states| == |labels| + 1
  {
  }
}
