/**
 What a crash inside a method can cost: concrete runs in which a guarantee of the quiet runs is lost.
 Each crashes once, between a write and the one that should have followed it.
 */
module AgentCrashes {
  import opened Basics
  import opened AgentModel
  import opened AgentSafety
  import opened AgentRuns
  import opened AgentGuarantees
  import opened AgentPaths
  import opened AgentRepeats

  // ---- Before a command is announced, after it is executed ---------------------------------------

  /**
   A crash between inserting an approval and announcing it leaves an approval the user can still grant
   once the run waits for another one: its command starts without ever having been announced.
   */
  lemma UnannouncedStart(overlap: Overlap) returns (states: seq<System>, labels: seq<Label>, a: Id, j: nat)
    ensures Run(overlap, states, labels)
    ensures var end := states[|labels|];
      && j < |end.log| && a in end.approvals
      && end.log[j].event == CommandStarted(end.approvals[a].actionId)
      && !Has(end.log, CommandApprovalRequired(a, end.approvals[a].actionId))
  {
    hide Step, Leads, Run, Finished, At;
    var origin := Initial(0);
    var end := Unannounced(overlap, origin);
    a, j := 1, 4;
    states, labels := LeadsIsRun(overlap, end);
  }

  lemma Unannounced(overlap: Overlap, origin: System) returns (end: System)
    requires origin == Initial(0)
    ensures Leads(overlap, origin, end)
    ensures 1 in end.approvals && end.approvals[1].actionId == 0
    ensures |end.log| == 5 && end.log[4].event == CommandStarted(0) && !Has(end.log, CommandApprovalRequired(1, 0))
  {
    hide Step, Leads, Run, Finished, Initial;
    var s1 := Starts(overlap);
    var s2 := AsksHalf(overlap, s1, "a");
    Onwards(overlap, origin, s1, s2);
    NothingFinished(s2.log);
    var s3 := Crashes(overlap, s2);
    Onwards(overlap, origin, s2, s3);
    var s4 := AsksHalf(overlap, s3, "b");
    Onwards(overlap, origin, s3, s4);
    var s5 := AsksRest(overlap, s4, Action(2, false, "b", Mutating), 3);
    Onwards(overlap, origin, s4, s5);
    end := GrantsAndStarts(overlap, s5, Action(0, false, "a", Mutating), 1);
    Onwards(overlap, origin, s5, end);
  }

  /** From reasoning to the execution of a command, just before its outcome is logged. */
  lemma RunsCommand(overlap: Overlap, s: System, text: string) returns (t: System)
    requires At(s, Reasoning, Idle) && Numbered(s.log) && s.memory.value.priors == [] && Finished(s.log) == []
    ensures Leads(overlap, s, t)
    ensures t.executed == s.executed + [Action(s.supply, false, text, Mutating)]
    ensures t.supply == s.supply + 2 && t.row == Row(Acting, |t.log| + 1)
    ensures Numbered(t.log) && Finished(t.log) == []
  {
    hide Step, Leads, Run, Finished;
    var x := Action(s.supply, false, text, Mutating);
    var a := AsksHalf(overlap, s, text);
    var b := AsksRest(overlap, a, x, x.id + 1);
    Onwards(overlap, s, a, b);
    var c := GrantsAndStarts(overlap, b, x, x.id + 1);
    Onwards(overlap, s, b, c);
    t := Executes(overlap, c, x, x.id + 1);
    Onwards(overlap, s, c, t);
    StillNothing(s.log, Entry(|s.log| + 1, CommandProposed(x.id, text, Mutating)));
    StillNothing(a.log, Entry(|a.log| + 1, CommandApprovalRequired(x.id + 1, x.id)));
    StillNothing(b.log, Entry(|b.log| + 1, ApprovalGranted(x.id + 1)));
    StillNothing(b.log + [Entry(|b.log| + 1, ApprovalGranted(x.id + 1))], Entry(|b.log| + 2, CommandStarted(x.id)));
  }

  lemma StillNothing(log: seq<Entry>, e: Entry)
    requires Finished(log) == [] && !e.event.CommandCompleted? && !e.event.CommandFailed?
    ensures Finished(log + [e]) == []
  {
  }

  /**
   A crash between executing a command and logging its outcome makes replay forget it: the same command
   is proposed, approved and executed again, under a new id.
   */
  lemma RepeatedExecution(overlap: Overlap) returns (states: seq<System>, labels: seq<Label>)
    ensures Run(overlap, states, labels)
    ensures var executed := states[|labels|].executed;
      |executed| == 2 && executed[0].text == executed[1].text && executed[0].id != executed[1].id
  {
    hide Step, Leads, Run, Finished, At;
    var end := Repeated(overlap, Initial(0));
    states, labels := LeadsIsRun(overlap, end);
  }

  lemma Repeated(overlap: Overlap, origin: System) returns (end: System)
    requires origin == Initial(0)
    ensures Leads(overlap, origin, end)
    ensures end.executed == [Action(0, false, "a", Mutating), Action(2, false, "a", Mutating)]
  {
    hide Step, Leads, Run, Finished, At;
    var s1 := Starts(overlap);
    NothingFinished(s1.log);
    var s2 := RunsCommand(overlap, s1, "a");
    Onwards(overlap, origin, s1, s2);
    var s3 := Crashes(overlap, s2);
    Onwards(overlap, origin, s2, s3);
    end := RunsCommand(overlap, s3, "a");
    Onwards(overlap, origin, s3, end);
  }

  // ---- An orphaned approval ----------------------------------------------------------------------

  lemma Observes(overlap: Overlap, s: System, x: Action, r: Id) returns (t: System)
    requires At(s, Acting, Started(x, r))
    ensures Leads(overlap, s, t) && At(t, Observing, Observed(x, true)) && t.log == s.log
    ensures t.executed == s.executed + [x]
    ensures t.approvals == s.approvals && t.pending == s.pending && t.supply == s.supply
  {
    hide Leads;
    var a := Step(overlap, s, Execute(true)).value;
    OneStep(overlap, s, Execute(true), a);
    t := ThenStep(overlap, s, a, Advance);
  }

  lemma TellsOutcome(overlap: Overlap, s: System, x: Action) returns (t: System)
    requires At(s, Observing, Observed(x, true)) && Numbered(s.log) && !x.isCall
    ensures Leads(overlap, s, t) && At(t, Observing, Idle) && SameStore(s, t)
    ensures t.log == s.log + [Entry(|s.log| + 1, CommandCompleted(x.id))]
  {
    hide Leads, Emit;
    EmitCases(s, Told(s.memory.value), CommandCompleted(x.id), Idle);
    var a := Step(overlap, s, Advance).value;
    OneStep(overlap, s, Advance, a);
    t := ThenStep(overlap, s, a, SaveRow);
  }

  /** Executes a started command and logs its outcome. */
  lemma ExecutesAndTells(overlap: Overlap, s: System, x: Action, r: Id) returns (t: System)
    requires At(s, Acting, Started(x, r)) && Numbered(s.log) && !x.isCall
    ensures Leads(overlap, s, t) && At(t, Observing, Idle) && t.executed == s.executed + [x]
    ensures t.log == s.log + [Entry(|s.log| + 1, CommandCompleted(x.id))]
    ensures t.approvals == s.approvals && t.pending == s.pending && t.supply == s.supply
  {
    hide Leads, Step;
    var a := Observes(overlap, s, x, r);
    t := TellsOutcome(overlap, a, x);
    Onwards(overlap, s, a, t);
  }

  /** Proposes, approves, executes and logs a command. */
  lemma RunsAndTells(overlap: Overlap, s: System, text: string) returns (t: System)
    requires At(s, Reasoning, Idle) && Numbered(s.log) && !Similar(overlap, text, s.memory.value.priors)
    ensures Leads(overlap, s, t) && At(t, Observing, Idle) && t.supply == s.supply + 2
    ensures var x := Action(s.supply, false, text, Mutating);
      && t.executed == s.executed + [x]
      && |t.log| == |s.log| + 5 && t.log[|s.log| + 4] == Entry(|t.log|, CommandCompleted(x.id)) && Numbered(t.log)
      && t.approvals == s.approvals[x.id + 1 := Request(x.id + 1, x.id, false, text, Granted)]
      && t.pending == s.pending[x.id := x] - {x.id}
  {
    hide Step, Leads, Similar;
    var x := Action(s.supply, false, text, Mutating);
    var a := AsksHalf(overlap, s, text);
    var b := AsksRest(overlap, a, x, x.id + 1);
    Onwards(overlap, s, a, b);
    var c := GrantsAndStarts(overlap, b, x, x.id + 1);
    Onwards(overlap, s, b, c);
    t := ExecutesAndTells(overlap, c, x, x.id + 1);
    Onwards(overlap, s, c, t);
  }

  /**
   A crash between inserting an approval and parking leaves an orphan. The same text is proposed again,
   executed and logged as finished; once the run waits for anything, the orphan can still be approved.
   */
  lemma OrphanRepeats(overlap: Overlap) returns (states: seq<System>, labels: seq<Label>)
    ensures Run(overlap, states, labels)
    ensures var end := states[|labels|];
      && |end.executed| == 2 && end.executed[0].text == end.executed[1].text
      && Has(end.log, CommandCompleted(end.executed[0].id))
  {
    hide Step, Leads, Run, Finished, At;
    var end := Orphaned(overlap, Initial(0));
    states, labels := LeadsIsRun(overlap, end);
  }

  lemma Orphaned(overlap: Overlap, origin: System) returns (end: System)
    requires origin == Initial(0)
    ensures Leads(overlap, origin, end)
    ensures end.executed == [Action(2, false, "a", Mutating), Action(0, false, "a", Mutating)]
    ensures Has(end.log, CommandCompleted(2))
  {
    hide Step, Leads, Run, Finished, Initial;
    var s1 := Starts(overlap);
    var s2 := AsksHalf(overlap, s1, "a");
    Onwards(overlap, origin, s1, s2);
    NothingFinished(s2.log);
    var s3 := Crashes(overlap, s2);
    Onwards(overlap, origin, s2, s3);
    var s4 := RunsAndTells(overlap, s3, "a");
    Onwards(overlap, origin, s3, s4);
    var s5 := Moves(overlap, s4, Observing, Reasoning);
    Onwards(overlap, origin, s4, s5);
    end := ApprovesOrphan(overlap, s5, Action(0, false, "a", Mutating), 1);
    Onwards(overlap, origin, s5, end);
    assert s5.log[5].event == CommandCompleted(2);
    assert Has(s5.log, CommandCompleted(2));
    HasGrows(s5.log, end.log, CommandCompleted(2));
  }

  /** Parks for a tool call, and approves the orphan instead. */
  lemma ApprovesOrphan(overlap: Overlap, s: System, x: Action, r: Id) returns (t: System)
    requires At(s, Reasoning, Idle) && Numbered(s.log) && !x.isCall
    requires r < s.supply && r in s.approvals && s.approvals[r] == Request(r, x.id, false, x.text, Pending)
    requires x.id < s.supply && x.id in s.pending && s.pending[x.id] == x
    ensures Leads(overlap, s, t) && t.executed == s.executed + [x] && s.log <= t.log
  {
    hide Step, Leads;
    var a := ParksCall(overlap, s);
    var b := GrantsAndStarts(overlap, a, x, r);
    Onwards(overlap, s, a, b);
    t := Executes(overlap, b, x, r);
    Onwards(overlap, s, b, t);
  }

  // ---- A stale cursor ----------------------------------------------------------------------------

  /** A crash between an event and the cursor: the rehydrated controller's next emission is refused. */
  lemma RefusedEmission(overlap: Overlap) returns (states: seq<System>, labels: seq<Label>)
    ensures Run(overlap, states, labels)
    ensures var end := states[|labels|];
      && end.memory.Some? && end.memory.value.pc == Idle && !end.memory.value.unsaved
      && end.memory.value.next == 1 && |end.log| == 1
      && forall tag :: Step(overlap, end, Note(tag)).Some? && Step(overlap, end, Note(tag)).value.log == end.log
  {
    hide Leads, Run;
    var origin := Initial(0);
    var s1 := Starts(overlap);
    var s2 := ThenStep(overlap, origin, s1, Note(""));
    var s3 := ThenStep(overlap, origin, s2, Crash);
    var end := ThenStep(overlap, origin, s3, Rehydrate([]));
    states, labels := LeadsIsRun(overlap, end);
  }
}
