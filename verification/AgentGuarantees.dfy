/** The guarantees of the agent protocol over whole runs, stated on the log and on what was executed. */
module AgentGuarantees {
  import opened Basics
  import opened AgentModel
  import opened AgentSafety
  import opened AgentRuns

  // ---- At most once --------------------------------------------------------------------------

  /** However often the process crashes, no action is executed twice. */
  lemma ExecutedAtMostOnce(overlap: Overlap, states: seq<System>, labels: seq<Label>, n: nat, i: nat, j: nat)
    requires Run(overlap, states, labels) && n < |states|
    requires i < |states[n].executed| && j < |states[n].executed|
    requires states[n].executed[i].id == states[n].executed[j].id
    ensures i == j
  {
    hide Run;
    RunSafe(overlap, states, labels, n);
  }

  /** What is executed is exactly what some approval, decided since, was asked for. */
  lemma ExecutedAsApproved(overlap: Overlap, states: seq<System>, labels: seq<Label>, n: nat, i: nat) returns (a: Id)
    requires Run(overlap, states, labels) && n < |states| && i < |states[n].executed|
    ensures a in states[n].approvals
    ensures var r, x := states[n].approvals[a], states[n].executed[i];
      r.actionId == x.id && r.text == x.text && r.isCall == x.isCall && r.state != Pending
  {
    hide Run;
    RunSafe(overlap, states, labels, n);
    var s := states[n];
    assert Authorised(s, s.executed[i]);
    a :| a in s.approvals && s.approvals[a].state != Pending
      && s.approvals[a] == Request(a, s.executed[i].id, s.executed[i].isCall, s.executed[i].text, s.approvals[a].state);
  }

  /** Every start in the log comes after the grant of an approval of that command. */
  lemma StartedAfterGrant(overlap: Overlap, states: seq<System>, labels: seq<Label>, n: nat, j: nat)
    returns (a: Id, i: nat)
    requires Run(overlap, states, labels) && n < |states|
    requires j < |states[n].log| && states[n].log[j].event.CommandStarted?
    ensures i < j && states[n].log[i].event == ApprovalGranted(a)
    ensures a in states[n].approvals && states[n].approvals[a].actionId == states[n].log[j].event.commandId
  {
    hide Run;
    RunSafe(overlap, states, labels, n);
    var s := states[n];
    a :| GrantedBefore(s.log, s.approvals, j, s.log[j].event.commandId, a);
    i :| 0 <= i < |s.log[..j]| && s.log[..j][i].event == ApprovalGranted(a);
  }

  // ---- The log only grows ----------------------------------------------------------------------

  /** What one step can do to the log, to the executed actions and to the approvals. */
  ghost predicate Effect(s: System, t: System) {
    && s.log <= t.log
    && (t.executed == s.executed
        || (s.memory.Some? && s.memory.value.pc.Started? && t.executed == s.executed + [s.memory.value.pc.x]))
  }

  lemma AdvanceEffect(overlap: Overlap, s: System, m: Memory)
    requires Advanced(overlap, s, m).Some?
    ensures var t := Advanced(overlap, s, m).value;
      t.executed == s.executed && s.log <= t.log
  {
    hide Similar, NeedsVerification, Emit, Outcome, Denial;
  }

  lemma StepEffect(overlap: Overlap, s: System, step: Label)
    requires Step(overlap, s, step).Some?
    ensures Effect(s, Step(overlap, s, step).value)
  {
    hide Extract, Finished, NonePending, Valid, Advanced, Emit, Decidable, Recovered;
    if step.Advance? && s.memory.Some? && !s.memory.value.unsaved {
      AdvanceEffect(overlap, s, s.memory.value);
    }
  }

  lemma StepGrowsLog(overlap: Overlap, s: System, step: Label)
    requires Step(overlap, s, step).Some?
    ensures s.log <= Step(overlap, s, step).value.log
  {
    hide Step;
    StepEffect(overlap, s, step);
  }

  lemma {:induction false} LogGrows(overlap: Overlap, states: seq<System>, labels: seq<Label>, m: nat, n: nat)
    requires Run(overlap, states, labels) && m <= n < |states|
    ensures states[m].log <= states[n].log
  {
    hide Step;
    if m < n {
      LogGrows(overlap, states, labels, m, n - 1);
      assert Step(overlap, states[n - 1], labels[n - 1]) == Some(states[n]);
      StepGrowsLog(overlap, states[n - 1], labels[n - 1]);
    }
  }

  lemma HasGrows(log: seq<Entry>, more: seq<Entry>, event: Event)
    requires log <= more && Has(log, event)
    ensures Has(more, event)
  {
  }

  // ---- Every execution of a command is in the log -----------------------------------------------

  ghost predicate Traced(s: System) {
    && (forall i :: 0 <= i < |s.executed| && !s.executed[i].isCall ==> Has(s.log, CommandStarted(s.executed[i].id)))
    && (s.memory.Some? && s.memory.value.pc.Started? && !s.memory.value.pc.x.isCall ==>
         Has(s.log, CommandStarted(s.memory.value.pc.x.id)))
  }

  lemma StepKeepsTraced(overlap: Overlap, s: System, step: Label)
    requires Traced(s) && Safe(s) && Step(overlap, s, step).Some?
    ensures Traced(Step(overlap, s, step).value)
  {
    hide Step, Safe, Has;
    var t := Step(overlap, s, step).value;
    StepEffect(overlap, s, step);
    StepStarts(overlap, s, step);
    StepGrowsLog(overlap, s, step);
    forall i | 0 <= i < |s.executed| && !s.executed[i].isCall ensures Has(t.log, CommandStarted(s.executed[i].id)) {
      HasGrows(s.log, t.log, CommandStarted(s.executed[i].id));
    }
    if s.memory.Some? && s.memory.value.pc.Started? && !s.memory.value.pc.x.isCall {
      HasGrows(s.log, t.log, CommandStarted(s.memory.value.pc.x.id));
    }
  }

  /** A method reaches the point of execution only by logging the start. */
  lemma StepStarts(overlap: Overlap, s: System, step: Label)
    requires Safe(s) && Step(overlap, s, step).Some?
    ensures var t := Step(overlap, s, step).value;
      t.memory.Some? && t.memory.value.pc.Started? && !t.memory.value.pc.x.isCall ==>
        (s.memory.Some? && s.memory.value.pc == t.memory.value.pc)
        || Has(t.log, CommandStarted(t.memory.value.pc.x.id))
  {
    hide Extract, Finished, NonePending, Valid, Base, Recorded, Has, Advanced, Emit, Decidable, Recovered;
    if step.Advance? && s.memory.Some? && !s.memory.value.unsaved {
      AdvanceStarts(overlap, s, s.memory.value);
    }
  }

  lemma AdvanceStarts(overlap: Overlap, s: System, m: Memory)
    requires Advanced(overlap, s, m).Some?
    ensures var t := Advanced(overlap, s, m).value;
      t.memory.Some? && t.memory.value.pc.Started? && !t.memory.value.pc.x.isCall ==>
        Has(t.log, CommandStarted(t.memory.value.pc.x.id))
  {
    hide Similar, NeedsVerification, LastSequence, Has, Outcome, Denial;
    if m.pc.ReadyToStart? {
      HasAppend(s.log, Entry(m.next, CommandStarted(m.pc.x.id)), CommandStarted(m.pc.x.id));
    }
  }

  /** No command reaches the host without its start having been logged first. */
  lemma {:induction false} ExecutionsLogged(overlap: Overlap, states: seq<System>, labels: seq<Label>, n: nat)
    requires Run(overlap, states, labels) && n < |states|
    ensures Traced(states[n])
  {
    hide Step, Safe, Traced;
    if n == 0 {
      InitialTraced(states[0].supply);
    } else {
      ExecutionsLogged(overlap, states, labels, n - 1);
      RunSafe(overlap, states, labels, n - 1);
      assert Step(overlap, states[n - 1], labels[n - 1]) == Some(states[n]);
      StepKeepsTraced(overlap, states[n - 1], labels[n - 1]);
    }
  }

  lemma InitialTraced(supply: nat)
    ensures Traced(Initial(supply))
  {
  }

  // ---- Live state and replay -----------------------------------------------------------------------

  /** At every point of every run the controller's flag is what replay of the log gives. */
  lemma LiveEqualsReplay(overlap: Overlap, states: seq<System>, labels: seq<Label>, n: nat)
    requires Run(overlap, states, labels) && n < |states| && states[n].memory.Some?
    ensures states[n].memory.value.verification == Extract(states[n].log)
  {
    hide Run;
    RunSafe(overlap, states, labels, n);
  }

  /** Entry `i` is the outcome of a command that may have changed something. */
  predicate Demands(log: seq<Entry>, i: nat)
    requires i < |log|
  {
    match log[i].event
    case CommandCompleted(id) => MutabilityIn(log[..i], id) in {Some(Mutating), Some(Unknown)}
    case CommandFailed(id) => MutabilityIn(log[..i], id) in {Some(Mutating), Some(Unknown)}
    case _ => false
  }

  /** Entry `i` is the success of a command that only reads. */
  predicate Discharges(log: seq<Entry>, i: nat)
    requires i < |log|
  {
    log[i].event.CommandCompleted? && MutabilityIn(log[..i], log[i].event.commandId) == Some(ReadIntent)
  }

  ghost predicate Outstanding(log: seq<Entry>, i: nat) {
    i < |log| && Demands(log, i) && forall k :: i < k < |log| ==> !Discharges(log, k)
  }

  /** Replay asks for verification exactly while some such outcome has no later successful read. */
  lemma {:induction false} ExtractMeaning(log: seq<Entry>)
    ensures Extract(log) <==> exists i :: Outstanding(log, i)
  {
    if log != [] {
      var n := |log| - 1;
      var front := log[..n];
      ExtractMeaning(front);
      forall i | 0 <= i < n
        ensures Demands(front, i) == Demands(log, i) && Discharges(front, i) == Discharges(log, i)
      {
        assert front[..i] == log[..i];
      }
      if Extract(front) && !Discharges(log, n) {
        var i :| Outstanding(front, i);
        assert Outstanding(log, i);
      }
      if Demands(log, n) {
        assert Outstanding(log, n);
      }
      forall i: nat | Outstanding(log, i) && i < n ensures Outstanding(front, i) {
      }
    }
  }

  /** Whenever a run is logged as completed, every risky outcome before it has a later successful read. */
  lemma CompletedMeansVerified(
    overlap: Overlap, states: seq<System>, labels: seq<Label>, n: nat, j: nat, i: nat) returns (k: nat)
    requires Run(overlap, states, labels) && n < |states|
    requires i < j < |states[n].log| && states[n].log[j].event.RunCompleted? && Demands(states[n].log, i)
    ensures i < k < j && Discharges(states[n].log, k)
  {
    hide Run;
    RunSafe(overlap, states, labels, n);
    var log := states[n].log;
    var before := log[..j];
    ExtractMeaning(before);
    assert before[..i] == log[..i];
    assert !Outstanding(before, i);
    k :| i < k < |before| && Discharges(before, k);
    assert before[..k] == log[..k];
  }

  /** The loop that rebuilds the flag when a controller is rehydrated. */
  method ExtractPendingVerification(log: seq<Entry>) returns (required: bool)
    ensures required == Extract(log)
  {
    var mutabilityByCommand: map<Id, Mutability> := map[];
    required := false;
    for n := 0 to |log|
      invariant required == Extract(log[..n])
      invariant forall id ::
        MutabilityIn(log[..n], id) == if id in mutabilityByCommand then Some(mutabilityByCommand[id]) else None
    {
      assert log[..n + 1][..n] == log[..n];
      match log[n].event
      case CommandProposed(id, _, mutability) => mutabilityByCommand := mutabilityByCommand[id := mutability];
      case CommandCompleted(id) =>
        if id in mutabilityByCommand {
          required := mutabilityByCommand[id] != ReadIntent;
        }
      case CommandFailed(id) =>
        if id in mutabilityByCommand && mutabilityByCommand[id] != ReadIntent {
          required := true;
        }
      case _ =>
    }
    assert log[..|log|] == log;
  }

  /** The loop that rebuilds the commands later proposals are compared with. */
  method ExtractFinished(log: seq<Entry>) returns (texts: seq<string>)
    ensures texts == Finished(log)
  {
    var commands: map<Id, string> := map[];
    texts := [];
    for n := 0 to |log|
      invariant texts == Finished(log[..n])
      invariant forall id :: TextIn(log[..n], id) == if id in commands then Some(commands[id]) else None
    {
      assert log[..n + 1][..n] == log[..n];
      match log[n].event
      case CommandProposed(id, command, _) => commands := commands[id := command];
      case CommandCompleted(id) => texts := texts + [if id in commands then commands[id] else "unknown"];
      case CommandFailed(id) => texts := texts + [if id in commands then commands[id] else "unknown"];
      case _ =>
    }
    assert log[..|log|] == log;
  }

  // ---- Numbering -------------------------------------------------------------------------------------

  /** The log is numbered 1, 2, 3, ... with no gap, and the cursor on disk never runs ahead of it. */
  lemma LogHasNoGaps(overlap: Overlap, states: seq<System>, labels: seq<Label>, n: nat, i: nat)
    requires Run(overlap, states, labels) && n < |states|
    ensures states[n].row.cursor <= |states[n].log| + 1
    ensures i < |states[n].log| ==> states[n].log[i].sequence == i + 1
  {
    hide Run;
    RunSafe(overlap, states, labels, n);
  }

  /** Whether an emission is accepted can be read off the cursor: exactly when it is not behind the log. */
  lemma EmissionAcceptedIff(overlap: Overlap, states: seq<System>, labels: seq<Label>, n: nat, event: Event, pc: Pc)
    requires Run(overlap, states, labels) && n < |states| && states[n].memory.Some?
    ensures var m := states[n].memory.value;
      Emit(states[n], m, event, pc).log != states[n].log <==> m.next == |states[n].log| + 1
  {
    hide Run;
    RunSafe(overlap, states, labels, n);
    EmitCases(states[n], states[n].memory.value, event, pc);
  }

  // ---- Announcements -----------------------------------------------------------------------------------

  ghost predicate Announcing(s: System, a: Id) {
    s.memory.Some? && s.memory.value.pc.Inserted? && s.memory.value.pc.a == a
  }

  ghost predicate AnnouncesNothing(s: System, t: System, a: Id) {
    && a in s.approvals && a in t.approvals && !Announcing(t, a) && t.approvals[a].actionId == s.approvals[a].actionId
    && s.log <= t.log && |t.log| <= |s.log| + 1
    && (t.log != s.log ==>
         var event := t.log[|s.log|].event;
         !(event.CommandApprovalRequired? && event.approvalId == a))
  }

  lemma AdvanceAnnounces(overlap: Overlap, s: System, m: Memory, a: Id)
    requires s.memory == Some(m) && Advanced(overlap, s, m).Some?
    requires a < s.supply && a in s.approvals && !Announcing(s, a)
    ensures AnnouncesNothing(s, Advanced(overlap, s, m).value, a)
  {
    hide Similar, NeedsVerification, Emit;
  }

  lemma StepAnnounces(overlap: Overlap, s: System, step: Label, a: Id)
    requires a < s.supply && a in s.approvals && !Announcing(s, a) && Step(overlap, s, step).Some?
    ensures AnnouncesNothing(s, Step(overlap, s, step).value, a)
  {
    hide Extract, Finished, NonePending, Valid, Advanced, Emit, Recovered;
    if step.Advance? && s.memory.Some? && !s.memory.value.unsaved {
      AdvanceAnnounces(overlap, s, s.memory.value, a);
    }
  }

  lemma SafeHasIds(s: System, a: Id)
    requires Safe(s) && a in s.approvals
    ensures a < s.supply
  {
  }

  /** Whether an approval is announced is settled once its announcing method is over. */
  lemma {:induction false} AnnouncementFixed(
    overlap: Overlap, states: seq<System>, labels: seq<Label>, m: nat, n: nat, a: Id, id: Id)
    requires Run(overlap, states, labels) && m <= n < |states|
    requires a in states[m].approvals && !Announcing(states[m], a)
    ensures a in states[n].approvals && !Announcing(states[n], a)
    ensures states[n].approvals[a].actionId == states[m].approvals[a].actionId
    ensures Has(states[n].log, CommandApprovalRequired(a, id)) <==> Has(states[m].log, CommandApprovalRequired(a, id))
  {
    hide Step, Safe, Has, Announcing;
    if m < n {
      AnnouncementFixed(overlap, states, labels, m, n - 1, a, id);
      RunSafe(overlap, states, labels, n - 1);
      assert Step(overlap, states[n - 1], labels[n - 1]) == Some(states[n]);
      SafeHasIds(states[n - 1], a);
      StepAnnounces(overlap, states[n - 1], labels[n - 1], a);
      if states[n].log != states[n - 1].log {
        var e := states[n].log[|states[n - 1].log|];
        assert states[n].log == states[n - 1].log + [e];
        HasAppend(states[n - 1].log, e, CommandApprovalRequired(a, id));
      }
    }
  }

  lemma NotStartedWhilePending(s: System, a: Id, j: nat)
    requires Safe(s) && a in s.approvals && s.approvals[a].state == Pending && j < |s.log|
    ensures s.log[j].event != CommandStarted(s.approvals[a].actionId)
  {
  }

  /**
   A start is preceded by the announcement of its approval exactly when the log held that
   announcement at the moment the user approved.
   */
  lemma StartAnnouncedIff(overlap: Overlap, states: seq<System>, labels: seq<Label>, m: nat, n: nat, a: Id, j: nat)
    requires Run(overlap, states, labels) && m < n < |states|
    requires labels[m].Approve? && labels[m].a == a
    requires a in states[m].approvals && states[m].approvals[a].state == Pending
    requires j < |states[n].log| && states[n].log[j].event == CommandStarted(states[m].approvals[a].actionId)
    ensures var announcement := CommandApprovalRequired(a, states[m].approvals[a].actionId);
      Has(states[n].log[..j], announcement) <==> Has(states[m].log, announcement)
  {
    var id := states[m].approvals[a].actionId;
    var announcement := CommandApprovalRequired(a, id);
    assert Step(overlap, states[m], labels[m]) == Some(states[m + 1]);
    assert !Announcing(states[m], a);
    hide Step, Safe, Run;
    RunSafe(overlap, states, labels, m);
    AnnouncementFixed(overlap, states, labels, m, n, a, id);
    LogGrows(overlap, states, labels, m, n);
    if j < |states[m].log| {
      NotStartedWhilePending(states[m], a, j);
    }
    if Has(states[m].log, announcement) {
      HasGrows(states[m].log, states[n].log[..j], announcement);
    }
    if Has(states[n].log[..j], announcement) {
      HasGrows(states[n].log[..j], states[n].log, announcement);
    }
  }

  // ---- The states of a run -------------------------------------------------------------------

  /** The table of run states, by what each state is entered from. */
  lemma StatesEntered(s: AgentState, t: AgentState)
    ensures s.CanTransitionTo(t) <==>
      s !in {AgentState.Completed, AgentState.Failed, AgentState.Cancelled} && match t
      case Created => false
      case Running => s in {Created, Paused}
      case Reasoning =>
        s in {Running, Observing, AwaitingApproval, AwaitingUser, Diagnosed, PlanningChange, ExecutingChange,
          AgentState.Verifying, AgentState.RollingBack, Paused}
      case Acting => s in {Reasoning, AwaitingApproval}
      case Observing => s == Acting
      case AwaitingApproval => s in {Reasoning, Acting, PlanningChange}
      case AwaitingUser => s == Reasoning
      case Diagnosed => s in {Reasoning, Observing}
      case PlanningChange => s in {Reasoning, Diagnosed}
      case ExecutingChange => s in {AwaitingApproval, PlanningChange}
      case Verifying => s == ExecutingChange
      case RollingBack => s in {ExecutingChange, AgentState.Verifying}
      case Paused => s in {Running, Reasoning, Acting, Observing, Diagnosed, PlanningChange}
      case Completed => s in {Reasoning, Diagnosed, AgentState.Verifying, AgentState.RollingBack}
      case Failed => true
      case Cancelled => true
  {
  }

  /**
   A crash and the startup after it lose the controller and nothing else. A run that was under way is
   paused; one that had ended, was new, or waited for approval, the user or its continuation is as it was.
   */
  lemma CrashPauses(overlap: Overlap, s: System)
    ensures var t := Step(overlap, s, Crash);
      && t.Some? && t.value == s.(row := t.value.row, memory := None)
      && t.value.row.cursor == s.row.cursor
      && t.value.row.state ==
           if s.row.state in {Created, Paused, AwaitingApproval, AwaitingUser, AgentState.Completed,
             AgentState.Failed, AgentState.Cancelled}
           then s.row.state else Paused
  {
  }
}
