/**
 When a command can be executed again, with crashes between any two writes. For every point of every run
 and every text there is an exact answer that can be read off the disk and the method in progress; no step
 turns it from no to yes, and an execution of an overlapping command needs it to be yes.
 */
module AgentRepeats {
  import opened Basics
  import opened AgentModel
  import opened AgentSafety
  import opened AgentRuns
  import opened AgentGuarantees
  import opened AgentPaths

  // ---- What a write does -----------------------------------------------------------------------

  /** The event the next write logs, if it logs one, and where the method then stands. */
  function Emission(m: Memory): (e: Option<(Event, Pc)>) {
    match m.pc
    case Inserted(x, a) => Some((CommandApprovalRequired(a, x.id), Announced(x, a)))
    case GrantSaved(x, a) => if x.isCall then Some((ApprovalGranted(a), GrantHalf(x, a))) else None
    case GrantHalf(x, a) => if x.isCall then None else Some((ApprovalGranted(a), GrantDone(x, a)))
    case ReadyToStart(x, a) =>
      Some((if x.isCall then ToolStarted(x.id) else CommandStarted(x.id), Started(x, a)))
    case Observed(x, success) => Some((Outcome(x, success), Idle))
    case DenyRemoved(a, to) => Some((Denial(a, to), DenyLogged))
    case Swept(a) => Some((ApprovalInvalidated(a), Idle))
    case Finishing => Some((RunCompleted, Idle))
    case _ => None
  }

  /** The memory the next emission starts from: an outcome is taken in first. */
  function Told(m: Memory): (n: Memory) {
    match m.pc
    case Observed(x, success) =>
      m.(verification := NeedsVerification(x, success, m.verification),
         priors := if x.isCall then m.priors else m.priors + [x.text])
    case _ => m
  }

  lemma AdvanceIsEmit(overlap: Overlap, s: System, m: Memory)
    requires s.memory == Some(m) && Advanced(overlap, s, m).Some? && Emission(m).Some?
    ensures Advanced(overlap, s, m) == Some(Emit(s, Told(m), Emission(m).value.0, Emission(m).value.1))
  {
    hide Similar, NeedsVerification, Outcome, Denial, Emit;
  }

  /** A write that logs nothing leaves the log, the cursor and the memory's knowledge alone. */
  lemma AdvanceWrites(overlap: Overlap, s: System, m: Memory)
    requires s.memory == Some(m) && Advanced(overlap, s, m).Some? && Emission(m).None?
    ensures var t := Advanced(overlap, s, m).value;
      && t.log == s.log && t.executed == s.executed && t.memory.Some?
      && var n := t.memory.value;
         && n == m.(state := n.state, pc := n.pc)
         && ((t.row == s.row && n.state == m.state) || t.row == Row(n.state, n.next))
  {
    hide Similar, NeedsVerification, Outcome, Denial, Emit;
  }

  // ---- What is finished ------------------------------------------------------------------------

  lemma FinishedAppend(log: seq<Entry>, e: Entry)
    requires !e.event.CommandCompleted? && !e.event.CommandFailed?
    ensures Finished(log + [e]) == Finished(log)
  {
    assert (log + [e])[..|log|] == log;
  }

  lemma OutcomeFinishes(log: seq<Entry>, x: Action, success: bool, e: Entry)
    requires Recorded(log, x) && e.event == Outcome(x, success)
    ensures Finished(log + [e]) == if x.isCall then Finished(log) else Finished(log) + [x.text]
  {
    assert (log + [e])[..|log|] == log;
  }

  lemma {:induction false} FinishedGrows(log: seq<Entry>, more: seq<Entry>)
    requires log <= more
    ensures forall text :: text in Finished(log) ==> text in Finished(more)
    decreases |more|
  {
    if |log| < |more| {
      var front := more[..|more| - 1];
      FinishedGrows(log, front);
      assert Finished(front) <= Finished(more);
    } else {
      assert log == more;
    }
  }

  // ---- Invariants of every run -------------------------------------------------------------------

  /** The text overlaps no command the log shows as finished: replay would let it be proposed. */
  ghost predicate Passes(overlap: Overlap, log: seq<Entry>, text: string) {
    forall z :: z in Finished(log) ==> !overlap(text, z)
  }

  /** Memory and row agree on the state, nothing finished is forgotten, and what is stored has been checked. */
  ghost predicate Steady(overlap: Overlap, s: System) {
    s.memory.Some? ==>
      var m := s.memory.value;
      && m.state == s.row.state
      && (forall z :: z in Finished(s.log) ==> z in m.priors)
      && (m.pc.Stored? ==> Passes(overlap, s.log, m.pc.x.text))
      && (m.pc.GrantSaved? || m.pc.GrantHalf? || m.pc.GrantDone? ==> m.state == AwaitingApproval)
  }

  lemma PriorsPass(overlap: Overlap, s: System, m: Memory, text: string)
    requires Steady(overlap, s) && s.memory == Some(m) && !Similar(overlap, text, m.priors)
    ensures Passes(overlap, s.log, text)
  {
  }

  lemma EmitSteady(overlap: Overlap, s: System, m: Memory, told: Memory, event: Event, pc: Pc)
    requires Numbered(s.log) && m.next <= |s.log| + 1 && Steady(overlap, s) && s.memory == Some(m)
    requires told == m.(verification := told.verification, priors := told.priors) && m.priors <= told.priors
    requires m.next == |s.log| + 1 ==>
      forall z :: z in Finished(s.log + [Entry(|s.log| + 1, event)]) ==> z in told.priors
    requires !pc.Stored? && (pc.GrantSaved? || pc.GrantHalf? || pc.GrantDone? ==> m.state == AwaitingApproval)
    ensures Steady(overlap, Emit(s, told, event, pc))
  {
    hide Finished, Numbered;
    EmitCases(s, told, event, pc);
  }

  lemma AdvanceSteady(overlap: Overlap, s: System, m: Memory)
    requires Safe(s) && Steady(overlap, s) && s.memory == Some(m) && !m.unsaved && Advanced(overlap, s, m).Some?
    ensures Steady(overlap, Advanced(overlap, s, m).value)
  {
    hide Finished, Base, Similar, NeedsVerification, Recorded, Extract, Has, Bound, Unused, WasExecuted, Emit;
    if Emission(m).Some? {
      var (event, pc) := Emission(m).value;
      AdvanceIsEmit(overlap, s, m);
      var e := Entry(|s.log| + 1, event);
      if m.pc.Observed? {
        OutcomeFinishes(s.log, m.pc.x, m.pc.success, e);
      } else {
        FinishedAppend(s.log, e);
      }
      hide Advanced, Emission;
      SafeNumbered(s);
      EmitSteady(overlap, s, m, Told(m), event, pc);
    } else {
      AdvanceWrites(overlap, s, m);
      if m.pc.Proposed? {
        PriorsPass(overlap, s, m, m.pc.x.text);
      }
    }
  }

  lemma SafeNumbered(s: System)
    requires Safe(s)
    ensures Numbered(s.log) && s.row.cursor <= |s.log| + 1
    ensures s.memory.Some? ==> s.memory.value.next <= |s.log| + 1
  {
  }

  lemma StepSteady(overlap: Overlap, s: System, step: Label)
    requires Safe(s) && Steady(overlap, s) && Step(overlap, s, step).Some?
    ensures Steady(overlap, Step(overlap, s, step).value)
  {
    hide Extract, Valid, Advanced, Base, PcOk, NonePending, Recovered, Passes, Finished, Numbered, LastSequence, Emit,
      Steady;
    SafeNumbered(s);
    match step
    case Advance => AdvanceSteady(overlap, s, s.memory.value);
    case Note(tag) => PlainEmitSteady(overlap, s, s, s.memory.value, Other(tag), s.memory.value.pc);
    case Propose(text, mutability) =>
      PlainEmitSteady(overlap, s, s.(supply := s.supply + 1), s.memory.value,
        CommandProposed(s.supply, text, mutability), Proposed(Action(s.supply, false, text, mutability)));
    case ProposeCall(text) =>
      PlainEmitSteady(overlap, s, s.(supply := s.supply + 1), s.memory.value,
        ToolApprovalRequired(s.supply), CallAnnounced(Action(s.supply, true, text, ReadIntent)));
    case _ => QuickSteady(overlap, s, step);
  }

  lemma PlainEmitSteady(overlap: Overlap, s: System, u: System, m: Memory, event: Event, pc: Pc)
    requires Numbered(s.log) && m.next <= |s.log| + 1 && Steady(overlap, s) && s.memory == Some(m)
    requires u == s.(supply := u.supply)
    requires !event.CommandCompleted? && !event.CommandFailed?
    requires pc.Idle? || pc.DenyLogged? || pc.Proposed? || pc.CallAnnounced?
    ensures Steady(overlap, Emit(u, m, event, pc))
  {
    hide Finished, Numbered;
    FinishedAppend(s.log, Entry(|s.log| + 1, event));
    EmitSteady(overlap, u, m, m, event, pc);
  }

  /** Steps that log nothing. */
  lemma QuickSteady(overlap: Overlap, s: System, step: Label)
    requires Safe(s) && Steady(overlap, s) && Step(overlap, s, step).Some?
    requires !step.Advance? && !step.Note? && !step.Propose? && !step.ProposeCall?
    ensures Steady(overlap, Step(overlap, s, step).value)
  {
    hide Extract, Valid, Advanced, Base, PcOk, NonePending, Recovered, Passes, Finished, Emit;
  }

  /** What holds at every point of every run. */
  ghost predicate Sound(overlap: Overlap, s: System) {
    Safe(s) && Steady(overlap, s)
  }

  lemma StepSound(overlap: Overlap, s: System, step: Label)
    requires Sound(overlap, s) && Step(overlap, s, step).Some?
    ensures Sound(overlap, Step(overlap, s, step).value)
  {
    hide Safe, Steady, Step;
    StepKeeps(overlap, s, step);
    StepSteady(overlap, s, step);
  }

  lemma InitialSound(overlap: Overlap, supply: nat)
    ensures Sound(overlap, Initial(supply))
  {
  }

  lemma {:induction false} RunSound(overlap: Overlap, states: seq<System>, labels: seq<Label>, n: nat)
    requires Run(overlap, states, labels) && n < |states|
    ensures Sound(overlap, states[n])
  {
    hide Sound, Step;
    if n == 0 {
      InitialSound(overlap, states[0].supply);
    } else {
      RunSound(overlap, states, labels, n - 1);
      assert Step(overlap, states[n - 1], labels[n - 1]) == Some(states[n]);
      StepSound(overlap, states[n - 1], labels[n - 1]);
    }
  }

  // ---- When a text can be executed again ---------------------------------------------------------

  /** Some overlapping command would pass the memory a replay of the log gives. */
  ghost predicate Proposable(overlap: Overlap, log: seq<Entry>, y: string) {
    exists u :: overlap(u, y) && Passes(overlap, log, u)
  }

  /** Approval `a` is pending for an overlapping command whose stored action it binds. */
  ghost predicate Rival(overlap: Overlap, s: System, a: Id, y: string) {
    && a in s.approvals && !s.approvals[a].isCall && overlap(s.approvals[a].text, y)
    && s.approvals[a].actionId in s.pending
    && Valid(s.approvals[a], s.pending[s.approvals[a].actionId], true)
  }

  ghost predicate Approvable(overlap: Overlap, s: System, y: string) {
    !s.row.state.IsTerminal() && exists a :: Rival(overlap, s, a, y)
  }

  /** The action the method in progress has been granted and has not executed yet. */
  function Granting(m: Memory): (x: Option<Action>) {
    match m.pc
    case GrantSaved(x, _) => Some(x)
    case GrantHalf(x, _) => Some(x)
    case GrantDone(x, _) => Some(x)
    case ReadyToStart(x, _) => Some(x)
    case Started(x, _) => Some(x)
    case _ => None
  }

  /** An overlapping command has been granted, and the events before its execution will be accepted. */
  ghost predicate UnderWay(overlap: Overlap, s: System, y: string) {
    && s.memory.Some? && Granting(s.memory.value).Some? && s.memory.value.next == |s.log| + 1
    && var x := Granting(s.memory.value).value;
       !x.isCall && overlap(x.text, y)
  }

  ghost predicate Repeatable(overlap: Overlap, s: System, y: string) {
    Proposable(overlap, s.log, y) || Approvable(overlap, s, y) || UnderWay(overlap, s, y)
  }

  // ---- No step makes it possible -----------------------------------------------------------------

  lemma ProposableBack(overlap: Overlap, s: System, t: System, y: string)
    requires s.log <= t.log && Proposable(overlap, t.log, y)
    ensures Proposable(overlap, s.log, y)
  {
    FinishedGrows(s.log, t.log);
    var u :| overlap(u, y) && Passes(overlap, t.log, u);
    assert overlap(u, y) && Passes(overlap, s.log, u);
  }

  /** Most writes leave the approvals alone and store no action. */
  lemma AdvanceTables(overlap: Overlap, s: System, m: Memory)
    requires s.memory == Some(m) && Advanced(overlap, s, m).Some?
    requires !m.pc.Proposed? && !m.pc.Stored? && !m.pc.CallAnnounced? && !m.pc.CallInserted?
    ensures var t := Advanced(overlap, s, m).value;
      t.approvals == s.approvals && forall id :: id in t.pending ==> id in s.pending && t.pending[id] == s.pending[id]
  {
    hide NeedsVerification, Outcome, Denial, LastSequence;
  }

  /** A write brings a new approval only for an action that has been checked. */
  lemma AdvanceRival(overlap: Overlap, s: System, m: Memory, a: Id, y: string)
    requires Safe(s) && s.memory == Some(m) && !m.unsaved && Advanced(overlap, s, m).Some?
    requires Rival(overlap, Advanced(overlap, s, m).value, a, y)
    ensures Rival(overlap, s, a, y) || (m.pc.Stored? && overlap(m.pc.x.text, y))
  {
    hide Executions, StartsGranted, CompletionsVerified, Numbered, Recorded, Extract, Similar, WasExecuted, Emit, Has;
    if !m.pc.Proposed? && !m.pc.Stored? && !m.pc.CallAnnounced? && !m.pc.CallInserted? {
      hide Safe, Advanced;
      AdvanceTables(overlap, s, m);
    }
  }

  lemma AdvanceEnds(overlap: Overlap, s: System, m: Memory)
    requires s.memory == Some(m) && Steady(overlap, s) && Advanced(overlap, s, m).Some? && s.row.state.IsTerminal()
    ensures Advanced(overlap, s, m).value.row.state.IsTerminal()
  {
    hide Similar, NeedsVerification, Outcome, Denial, Emit, Passes, Finished;
    if Emission(m).Some? {
      AdvanceIsEmit(overlap, s, m);
      hide Advanced;
    }
  }

  /** A step that writes nothing of a method in progress brings no rival, and reopens a run only without one. */
  lemma OtherRival(overlap: Overlap, s: System, step: Label, a: Id, y: string)
    requires Safe(s) && Steady(overlap, s) && !step.Advance? && Step(overlap, s, step).Some?
    requires Rival(overlap, Step(overlap, s, step).value, a, y) && !Step(overlap, s, step).value.row.state.IsTerminal()
    ensures Rival(overlap, s, a, y) && !s.row.state.IsTerminal()
  {
    hide Extract, Finished, Advanced, Base, PcOk, Passes, Emit;
  }

  lemma StepApprovable(overlap: Overlap, s: System, step: Label, y: string)
    requires Sound(overlap, s) && Step(overlap, s, step).Some?
    requires Approvable(overlap, Step(overlap, s, step).value, y)
    ensures Approvable(overlap, s, y) || Proposable(overlap, s.log, y)
  {
    hide Safe, Rival;
    var t := Step(overlap, s, step).value;
    var a :| Rival(overlap, t, a, y);
    if step.Advance? {
      var m := s.memory.value;
      AdvanceRival(overlap, s, m, a, y);
      if s.row.state.IsTerminal() {
        AdvanceEnds(overlap, s, m);
      } else if !Rival(overlap, s, a, y) {
        assert overlap(m.pc.x.text, y) && Passes(overlap, s.log, m.pc.x.text);
      }
    } else {
      hide Step;
      OtherRival(overlap, s, step, a, y);
    }
  }

  lemma AdvanceUnderWay(overlap: Overlap, s: System, m: Memory, y: string)
    requires Safe(s) && s.memory == Some(m) && !m.unsaved && Advanced(overlap, s, m).Some?
    requires UnderWay(overlap, Advanced(overlap, s, m).value, y)
    ensures UnderWay(overlap, s, y)
  {
    hide Base, PcOk, Similar, NeedsVerification, Outcome, Denial, Emit, Extract;
    SafeNumbered(s);
    if Emission(m).Some? {
      AdvanceIsEmit(overlap, s, m);
      EmitCases(s, Told(m), Emission(m).value.0, Emission(m).value.1);
      hide Advanced;
    }
  }

  lemma OtherUnderWay(overlap: Overlap, s: System, step: Label, y: string)
    requires Safe(s) && Steady(overlap, s) && !step.Advance? && Step(overlap, s, step).Some?
    requires UnderWay(overlap, Step(overlap, s, step).value, y)
    ensures UnderWay(overlap, s, y) || (step.Approve? && Rival(overlap, s, step.a, y) && !s.row.state.IsTerminal())
  {
    hide Extract, Finished, Advanced, Base, PcOk, Passes, Emit;
  }

  lemma StepUnderWay(overlap: Overlap, s: System, step: Label, y: string)
    requires Sound(overlap, s) && Step(overlap, s, step).Some?
    requires UnderWay(overlap, Step(overlap, s, step).value, y)
    ensures UnderWay(overlap, s, y) || Approvable(overlap, s, y)
  {
    hide Safe, Rival, UnderWay, Steady;
    if step.Advance? {
      AdvanceUnderWay(overlap, s, s.memory.value, y);
    } else {
      hide Step;
      OtherUnderWay(overlap, s, step, y);
    }
  }

  /** No step makes a text repeatable that was not. */
  lemma StepRepeatable(overlap: Overlap, s: System, step: Label, y: string)
    requires Sound(overlap, s) && Step(overlap, s, step).Some?
    requires Repeatable(overlap, Step(overlap, s, step).value, y)
    ensures Repeatable(overlap, s, y)
  {
    hide Step, Sound, Proposable, Approvable, UnderWay;
    var t := Step(overlap, s, step).value;
    if Proposable(overlap, t.log, y) {
      StepGrowsLog(overlap, s, step);
      ProposableBack(overlap, s, t, y);
    } else if Approvable(overlap, t, y) {
      StepApprovable(overlap, s, step, y);
    } else {
      StepUnderWay(overlap, s, step, y);
    }
  }

  /** What a step executes overlaps only what was repeatable before it. */
  lemma StepExecutes(overlap: Overlap, s: System, step: Label, x: Action, y: string)
    requires Sound(overlap, s) && Step(overlap, s, step).Some?
    requires Step(overlap, s, step).value.executed == s.executed + [x] && !x.isCall && overlap(x.text, y)
    ensures Repeatable(overlap, s, y)
  {
    hide Step, Base, Steady, Proposable, Approvable;
    var t := Step(overlap, s, step).value;
    StepEffect(overlap, s, step);
    assert t.executed[|s.executed|] == x;
  }

  // ---- Over whole runs ---------------------------------------------------------------------------

  /** Between `s` and `t` a command overlapping `y` was executed. */
  ghost predicate Repeats(overlap: Overlap, s: System, t: System, y: string) {
    exists i :: |s.executed| <= i < |t.executed| && !t.executed[i].isCall && overlap(t.executed[i].text, y)
  }

  /** Some continuation from `s` executes a command overlapping `y`. */
  ghost predicate CanRepeat(overlap: Overlap, s: System, y: string) {
    exists t :: Leads(overlap, s, t) && Repeats(overlap, s, t, y)
  }

  lemma StepExecutedGrows(overlap: Overlap, s: System, step: Label)
    requires Step(overlap, s, step).Some?
    ensures var t := Step(overlap, s, step).value;
      t.executed == s.executed || exists x :: t.executed == s.executed + [x]
  {
    hide Step;
    StepEffect(overlap, s, step);
  }

  lemma {:induction false} AfterGrows(overlap: Overlap, s: System, steps: seq<Label>, t: System)
    requires After(overlap, s, steps) == Some(t)
    ensures s.executed <= t.executed
    decreases |steps|
  {
    hide Step;
    if steps != [] {
      StepExecutedGrows(overlap, s, steps[0]);
      AfterGrows(overlap, Step(overlap, s, steps[0]).value, steps[1..], t);
    }
  }

  lemma {:induction false} AfterRepeats(overlap: Overlap, s: System, steps: seq<Label>, t: System, y: string)
    requires Sound(overlap, s) && After(overlap, s, steps) == Some(t) && Repeats(overlap, s, t, y)
    ensures Repeatable(overlap, s, y)
    decreases |steps|
  {
    hide Step, Sound, Repeatable;
    if steps != [] {
      var v := Step(overlap, s, steps[0]).value;
      StepSound(overlap, s, steps[0]);
      StepExecutedGrows(overlap, s, steps[0]);
      AfterGrows(overlap, v, steps[1..], t);
      if Repeats(overlap, v, t, y) {
        AfterRepeats(overlap, v, steps[1..], t, y);
        StepRepeatable(overlap, s, steps[0], y);
      } else {
        var i :| |s.executed| <= i < |t.executed| && !t.executed[i].isCall && overlap(t.executed[i].text, y);
        assert v.executed[i] == t.executed[i];
        StepExecutes(overlap, s, steps[0], t.executed[i], y);
      }
    }
  }

  /** Once a text is not repeatable, nothing that overlaps it is ever executed, wherever the process crashes. */
  lemma {:induction false} NoRepeatAfter(
    overlap: Overlap, states: seq<System>, labels: seq<Label>, m: nat, n: nat, y: string)
    requires Run(overlap, states, labels) && m <= n < |states| && !Repeatable(overlap, states[m], y)
    ensures !Repeatable(overlap, states[n], y) && !Repeats(overlap, states[m], states[n], y)
    ensures states[m].executed <= states[n].executed
  {
    hide Step, Sound, Repeatable;
    if m < n {
      NoRepeatAfter(overlap, states, labels, m, n - 1, y);
      RunSound(overlap, states, labels, n - 1);
      var s, t := states[n - 1], states[n];
      assert Step(overlap, s, labels[n - 1]) == Some(t);
      if Repeatable(overlap, t, y) {
        StepRepeatable(overlap, s, labels[n - 1], y);
      }
      StepExecutedGrows(overlap, s, labels[n - 1]);
      if Repeats(overlap, states[m], t, y) {
        var i :| |states[m].executed| <= i < |t.executed| && !t.executed[i].isCall && overlap(t.executed[i].text, y);
        if i >= |s.executed| {
          StepExecutes(overlap, s, labels[n - 1], t.executed[i], y);
        }
      }
    }
  }

  // ---- How it happens ----------------------------------------------------------------------------

  lemma {:induction false} AfterSound(overlap: Overlap, s: System, steps: seq<Label>, t: System)
    requires Sound(overlap, s) && After(overlap, s, steps) == Some(t)
    ensures Sound(overlap, t)
    decreases |steps|
  {
    hide Step, Sound;
    if steps != [] {
      StepSound(overlap, s, steps[0]);
      AfterSound(overlap, Step(overlap, s, steps[0]).value, steps[1..], t);
    }
  }

  lemma LeadsSound(overlap: Overlap, s: System, t: System)
    requires Sound(overlap, s) && Leads(overlap, s, t)
    ensures Sound(overlap, t) && Numbered(t.log)
  {
    hide Sound, After;
    var steps :| After(overlap, s, steps) == Some(t);
    AfterSound(overlap, s, steps, t);
    SoundNumbered(overlap, t);
  }

  lemma SoundNumbered(overlap: Overlap, s: System)
    requires Sound(overlap, s)
    ensures Numbered(s.log) && s.row.cursor <= |s.log| + 1
    ensures s.memory.Some? ==> s.memory.value.next <= |s.log| + 1 && s.memory.value.state == s.row.state
  {
  }

  /** Nothing executed, forgotten or finished on the way. */
  ghost predicate Unmoved(s: System, t: System) {
    && t.executed == s.executed && Finished(t.log) == Finished(s.log)
    && s.memory.Some? && t.memory.Some? && t.memory.value.priors == s.memory.value.priors
  }

  /** A controller between methods catches its cursor up by emitting. */
  lemma {:induction false} CatchesUp(overlap: Overlap, s: System) returns (t: System)
    requires Sound(overlap, s) && s.memory.Some? && s.memory.value.pc == Idle && !s.memory.value.unsaved
    ensures Leads(overlap, s, t) && At(t, s.row.state, Idle) && SameStore(s, t) && Unmoved(s, t)
    decreases |s.log| + 1 - s.memory.value.next
  {
    hide Sound, Leads, Emit, Finished;
    SoundNumbered(overlap, s);
    var m := s.memory.value;
    EmitCases(s, m, Other(""), Idle);
    var u := Step(overlap, s, Note("")).value;
    OneStep(overlap, s, Note(""), u);
    if m.next <= |s.log| {
      StepSound(overlap, s, Note(""));
      t := CatchesUp(overlap, u);
      Onwards(overlap, s, u, t);
    } else {
      FinishedAppend(s.log, Entry(|s.log| + 1, Other("")));
      t := ThenStep(overlap, s, u, SaveRow);
    }
  }

  /** Crash, restart, rehydration, and the cursor caught up. */
  lemma Revives(overlap: Overlap, s: System) returns (t: System)
    requires Sound(overlap, s)
    ensures Leads(overlap, s, t) && At(t, Recovered(s.row.state), Idle) && SameStore(s, t)
    ensures Finished(t.log) == Finished(s.log) && t.memory.value.priors == Finished(s.log)
  {
    hide Sound, Leads, Finished, Extract, Recovered;
    var a := Step(overlap, s, Crash).value;
    OneStep(overlap, s, Crash, a);
    var b := ThenStep(overlap, s, a, Rehydrate([]));
    LeadsSound(overlap, s, b);
    t := CatchesUp(overlap, b);
    Onwards(overlap, s, b, t);
  }

  lemma Moves(overlap: Overlap, s: System, state: AgentState, next: AgentState) returns (t: System)
    requires At(s, state, Idle) && state.CanTransitionTo(next) && next != AwaitingApproval && next != Completed
    requires state == AwaitingApproval ==> next.IsTerminal()
    ensures Leads(overlap, s, t) && At(t, next, Idle) && SameStore(s, t) && t.log == s.log && Unmoved(s, t)
  {
    hide Leads, Finished;
    t := Step(overlap, s, Move(next)).value;
    OneStep(overlap, s, Move(next), t);
  }

  /** One pending approval of a finished run invalidated. */
  lemma Sweeps(overlap: Overlap, s: System, state: AgentState, a: Id) returns (t: System)
    requires At(s, state, Idle) && state.IsTerminal() && Numbered(s.log)
    requires a in s.approvals && s.approvals[a].state == Pending
    ensures Leads(overlap, s, t) && At(t, state, Idle) && Unmoved(s, t)
    ensures t.approvals == s.approvals[a := s.approvals[a].(state := Invalidated)]
    ensures t.log == s.log + [Entry(|s.log| + 1, ApprovalInvalidated(a))]
  {
    hide Leads, Finished, Emit;
    var u := Step(overlap, s, Sweep(a)).value;
    OneStep(overlap, s, Sweep(a), u);
    EmitCases(u, u.memory.value, ApprovalInvalidated(a), Idle);
    FinishedAppend(s.log, Entry(|s.log| + 1, ApprovalInvalidated(a)));
    var v := ThenStep(overlap, s, u, Advance);
    t := ThenStep(overlap, s, v, SaveRow);
  }

  lemma {:induction false} SweepsAll(overlap: Overlap, s: System, state: AgentState) returns (t: System)
    requires At(s, state, Idle) && state.IsTerminal() && Numbered(s.log)
    ensures Leads(overlap, s, t) && At(t, state, Idle) && Unmoved(s, t) && NonePending(t.approvals)
    decreases |set a | a in s.approvals && s.approvals[a].state == Pending|
  {
    hide Leads, Finished;
    var left := set a | a in s.approvals && s.approvals[a].state == Pending;
    if left == {} {
      Stays(overlap, s);
      t := s;
      assert forall a :: a in s.approvals ==> a !in left;
    } else {
      var a :| a in left;
      var u := Sweeps(overlap, s, state, a);
      assert (set b | b in u.approvals && u.approvals[b].state == Pending) == left - {a};
      t := SweepsAll(overlap, u, state);
      Onwards(overlap, s, u, t);
    }
  }

  lemma Stays(overlap: Overlap, s: System)
    ensures Leads(overlap, s, s)
  {
    assert After(overlap, s, []) == Some(s);
  }

  /** Whatever the run waits for, it can be failed, its approvals swept, and the run reopened. */
  lemma Reopens(overlap: Overlap, s: System, state: AgentState) returns (t: System)
    requires Sound(overlap, s) && At(s, state, Idle)
    ensures Leads(overlap, s, t) && At(t, Reasoning, Idle) && Unmoved(s, t)
  {
    hide Sound, Leads, Finished, NonePending;
    SoundNumbered(overlap, s);
    var u, final := s, state;
    Stays(overlap, s);
    if !state.IsTerminal() {
      final := AgentState.Failed;
      u := Moves(overlap, s, state, final);
    }
    var v := SweepsAll(overlap, u, final);
    Onwards(overlap, s, u, v);
    t := ThenStep(overlap, s, v, Reopen);
  }

  lemma PassesIsNew(overlap: Overlap, log: seq<Entry>, text: string)
    requires Passes(overlap, log, text)
    ensures !Similar(overlap, text, Finished(log))
  {
  }

  /** A command that passes is proposed, approved and executed. */
  lemma RunsChecked(overlap: Overlap, s: System, text: string) returns (t: System)
    requires At(s, Reasoning, Idle) && Numbered(s.log) && !Similar(overlap, text, s.memory.value.priors)
    ensures Leads(overlap, s, t) && t.executed == s.executed + [Action(s.supply, false, text, Mutating)]
  {
    hide Step, Leads, Similar;
    var x := Action(s.supply, false, text, Mutating);
    var a := AsksHalf(overlap, s, text);
    var b := AsksRest(overlap, a, x, x.id + 1);
    Onwards(overlap, s, a, b);
    var c := GrantsAndStarts(overlap, b, x, x.id + 1);
    Onwards(overlap, s, b, c);
    t := Executes(overlap, c, x, x.id + 1);
    Onwards(overlap, s, c, t);
  }

  lemma ProposableRuns(overlap: Overlap, s: System, y: string)
    requires Sound(overlap, s) && Proposable(overlap, s.log, y)
    ensures CanRepeat(overlap, s, y)
  {
    hide Sound, Leads, Finished, Similar, Passes;
    var text :| overlap(text, y) && Passes(overlap, s.log, text);
    var a := Revives(overlap, s);
    LeadsSound(overlap, s, a);
    var b := Reopens(overlap, a, Recovered(s.row.state));
    Onwards(overlap, s, a, b);
    LeadsSound(overlap, s, b);
    PassesIsNew(overlap, s.log, text);
    var t := RunsChecked(overlap, b, text);
    Onwards(overlap, s, b, t);
    assert t.executed[|s.executed|].text == text;
    assert Repeats(overlap, s, t, y);
  }

  // ---- By way of an approval left pending ----------------------------------------------------------

  /** A run that reasons parks for a tool call, which nothing compares with earlier commands. */
  lemma ParksCall(overlap: Overlap, s: System) returns (t: System)
    requires At(s, Reasoning, Idle) && Numbered(s.log)
    ensures Leads(overlap, s, t) && At(t, AwaitingApproval, Idle) && Numbered(t.log) && t.executed == s.executed
    ensures t.approvals == s.approvals[s.supply + 1 := Request(s.supply + 1, s.supply, true, "", Pending)]
    ensures t.pending == s.pending[s.supply := Action(s.supply, true, "", ReadIntent)] && s.log <= t.log
  {
    hide Leads, Emit;
    var x := Action(s.supply, true, "", ReadIntent);
    var a := Moves(overlap, s, Reasoning, Acting);
    EmitCases(a.(supply := s.supply + 1), a.memory.value, ToolApprovalRequired(x.id), CallAnnounced(x));
    var b := ThenStep(overlap, s, a, ProposeCall(""));
    var c := ThenStep(overlap, s, b, SaveRow);
    t := StoresCall(overlap, c, x);
    Onwards(overlap, s, c, t);
  }

  lemma StoresCall(overlap: Overlap, s: System, x: Action) returns (t: System)
    requires At(s, Acting, CallAnnounced(x)) && x.isCall
    ensures Leads(overlap, s, t) && At(t, AwaitingApproval, Idle) && t.log == s.log && t.executed == s.executed
    ensures t.approvals == s.approvals[s.supply := Request(s.supply, x.id, true, x.text, Pending)]
    ensures t.pending == s.pending[x.id := x]
  {
    hide Leads;
    var a := Step(overlap, s, Advance).value;
    OneStep(overlap, s, Advance, a);
    var b := ThenStep(overlap, s, a, Advance);
    t := ThenStep(overlap, s, b, Advance);
  }

  /** A live run can be brought to wait for an approval, with what is pending left pending. */
  lemma Waits(overlap: Overlap, s: System, state: AgentState) returns (t: System)
    requires At(s, state, Idle) && Numbered(s.log) && state in {AwaitingApproval, AwaitingUser, Paused, Created}
    ensures Leads(overlap, s, t) && At(t, AwaitingApproval, Idle) && Numbered(t.log) && t.executed == s.executed
    ensures forall a :: a in s.approvals && a < s.supply ==> a in t.approvals && t.approvals[a] == s.approvals[a]
    ensures forall id :: id in s.pending && id < s.supply ==> id in t.pending && t.pending[id] == s.pending[id]
  {
    hide Leads, Step, Finished;
    Stays(overlap, s);
    t := s;
    if state != AwaitingApproval {
      var a := s;
      if state == Created {
        a := Moves(overlap, s, Created, Running);
      }
      var b := Moves(overlap, a, a.row.state, Reasoning);
      Onwards(overlap, s, a, b);
      t := ParksCall(overlap, b);
      Onwards(overlap, s, b, t);
    }
  }

  lemma RivalIs(overlap: Overlap, s: System, a: Id, y: string) returns (x: Action)
    requires Sound(overlap, s) && Rival(overlap, s, a, y)
    ensures a in s.approvals && a < s.supply && x.id < s.supply && x.id in s.pending && s.pending[x.id] == x
    ensures !x.isCall && overlap(x.text, y) && s.approvals[a] == Request(a, x.id, false, x.text, Pending)
  {
    x := s.pending[s.approvals[a].actionId];
  }

  lemma ApprovableRuns(overlap: Overlap, s: System, y: string)
    requires Sound(overlap, s) && Approvable(overlap, s, y)
    ensures CanRepeat(overlap, s, y)
  {
    hide Sound, Leads, Finished, Rival;
    var r: Id :| Rival(overlap, s, r, y);
    var x := RivalIs(overlap, s, r, y);
    var a := Revives(overlap, s);
    LeadsSound(overlap, s, a);
    var b := Waits(overlap, a, Recovered(s.row.state));
    Onwards(overlap, s, a, b);
    assert r in a.approvals && x.id in a.pending;
    var c := GrantsAndStarts(overlap, b, x, r);
    Onwards(overlap, s, b, c);
    var t := Executes(overlap, c, x, r);
    Onwards(overlap, s, c, t);
    assert t.executed[|s.executed|] == x;
    assert Repeats(overlap, s, t, y);
  }

  // ---- By way of a grant in progress ---------------------------------------------------------------

  /** A method that stands at `pc`, its next number the log's. */
  predicate Near(s: System, state: AgentState, pc: Pc) {
    && s.memory.Some?
    && var m := s.memory.value;
       m.state == state && m.next == |s.log| + 1 && !m.unsaved && m.pc == pc
  }

  lemma Saves(overlap: Overlap, s: System) returns (t: System)
    requires s.memory.Some? && s.memory.value.next == |s.log| + 1
    ensures Leads(overlap, s, t) && Near(t, s.memory.value.state, s.memory.value.pc)
    ensures t.log == s.log && t.executed == s.executed
  {
    hide Leads;
    if s.memory.value.unsaved {
      t := Step(overlap, s, SaveRow).value;
      OneStep(overlap, s, SaveRow, t);
    } else {
      Stays(overlap, s);
      t := s;
    }
  }

  /** An emission that is accepted, and its cursor saved. */
  lemma Tells(overlap: Overlap, s: System, state: AgentState) returns (t: System)
    requires Numbered(s.log) && s.memory.Some? && Near(s, state, s.memory.value.pc)
    requires !s.memory.value.pc.Observed? && Emission(s.memory.value).Some?
    ensures Leads(overlap, s, t) && Near(t, state, Emission(s.memory.value).value.1)
    ensures Numbered(t.log) && t.executed == s.executed
  {
    hide Leads, Emit;
    var m := s.memory.value;
    EmitCases(s, m, Emission(m).value.0, Emission(m).value.1);
    var u := Step(overlap, s, Advance).value;
    OneStep(overlap, s, Advance, u);
    t := Saves(overlap, u);
    Onwards(overlap, s, u, t);
  }

  lemma SavedIsLogged(overlap: Overlap, s: System, x: Action, a: Id) returns (t: System)
    requires Near(s, AwaitingApproval, GrantSaved(x, a)) && Numbered(s.log) && !x.isCall
    ensures Leads(overlap, s, t) && Near(t, AwaitingApproval, GrantDone(x, a)) && Numbered(t.log)
    ensures t.executed == s.executed
  {
    hide Leads;
    var u := Step(overlap, s, Advance).value;
    OneStep(overlap, s, Advance, u);
    t := Tells(overlap, u, AwaitingApproval);
    Onwards(overlap, s, u, t);
  }

  lemma LoggedIsReady(overlap: Overlap, s: System, x: Action, a: Id) returns (t: System)
    requires Near(s, AwaitingApproval, GrantDone(x, a)) && Numbered(s.log)
    ensures Leads(overlap, s, t) && Near(t, Acting, ReadyToStart(x, a)) && Numbered(t.log) && t.executed == s.executed
  {
    hide Leads;
    t := Step(overlap, s, Advance).value;
    OneStep(overlap, s, Advance, t);
  }

  lemma GrantedRuns(overlap: Overlap, s: System) returns (t: System)
    requires Sound(overlap, s) && s.memory.Some? && s.memory.value.next == |s.log| + 1
    requires Granting(s.memory.value).Some? && !Granting(s.memory.value).value.isCall
    ensures Leads(overlap, s, t) && t.executed == s.executed + [Granting(s.memory.value).value]
  {
    hide Leads, Sound, Step;
    SoundNumbered(overlap, s);
    var x, a := Granting(s.memory.value).value, s.memory.value.pc.a;
    t := Saves(overlap, s);
    GrantingWaits(overlap, s);
    if t.memory.value.pc.GrantSaved? {
      var u := SavedIsLogged(overlap, t, x, a);
      Onwards(overlap, s, t, u);
      t := u;
    } else if t.memory.value.pc.GrantHalf? {
      var u := Tells(overlap, t, AwaitingApproval);
      Onwards(overlap, s, t, u);
      t := u;
    }
    if t.memory.value.pc.GrantDone? {
      var u := LoggedIsReady(overlap, t, x, a);
      Onwards(overlap, s, t, u);
      t := u;
    }
    if t.memory.value.pc.ReadyToStart? {
      var u := Tells(overlap, t, t.memory.value.state);
      Onwards(overlap, s, t, u);
      t := u;
    }
    t := RunsStarted(overlap, s, t);
  }

  lemma GrantingWaits(overlap: Overlap, s: System)
    requires Sound(overlap, s) && s.memory.Some?
    ensures var m := s.memory.value;
      m.pc.GrantSaved? || m.pc.GrantHalf? || m.pc.GrantDone? ==> m.state == AwaitingApproval
  {
  }

  lemma RunsStarted(overlap: Overlap, s: System, u: System) returns (t: System)
    requires Leads(overlap, s, u) && u.memory.Some? && u.memory.value.pc.Started? && !u.memory.value.unsaved
    ensures Leads(overlap, s, t) && t.executed == u.executed + [u.memory.value.pc.x]
  {
    hide Leads;
    t := ThenStep(overlap, s, u, Execute(true));
  }

  lemma UnderWayRuns(overlap: Overlap, s: System, y: string)
    requires Sound(overlap, s) && UnderWay(overlap, s, y)
    ensures CanRepeat(overlap, s, y)
  {
    hide Sound, Leads;
    var t := GrantedRuns(overlap, s);
    assert t.executed[|s.executed|] == Granting(s.memory.value).value;
    assert Repeats(overlap, s, t, y);
  }

  /**
   At any point of any run, crashes anywhere, some continuation executes a command overlapping `y` exactly
   when an overlapping text passes the replayed memory, or an overlapping approval is pending on a live run
   with its action stored, or an overlapping command has just been granted.
   */
  lemma CanRepeatIff(overlap: Overlap, states: seq<System>, labels: seq<Label>, n: nat, y: string)
    requires Run(overlap, states, labels) && n < |states|
    ensures CanRepeat(overlap, states[n], y) <==> Repeatable(overlap, states[n], y)
  {
    hide Run, Sound, After, Repeats, Proposable, Approvable, UnderWay;
    var s := states[n];
    RunSound(overlap, states, labels, n);
    if t :| Leads(overlap, s, t) && Repeats(overlap, s, t, y) {
      var steps :| After(overlap, s, steps) == Some(t);
      AfterRepeats(overlap, s, steps, t, y);
    }
    if Proposable(overlap, s.log, y) {
      ProposableRuns(overlap, s, y);
    } else if Approvable(overlap, s, y) {
      ApprovableRuns(overlap, s, y);
    } else if UnderWay(overlap, s, y) {
      UnderWayRuns(overlap, s, y);
    }
  }

  // ---- Once the log tells of it --------------------------------------------------------------------

  lemma FinishedNotProposable(overlap: Overlap, log: seq<Entry>, y: string)
    requires y in Finished(log)
    ensures !Proposable(overlap, log, y)
  {
  }

  /** A command the log shows as finished can be repeated only by an approval pending or just granted. */
  lemma FinishedRepeatableIff(overlap: Overlap, s: System, y: string)
    requires y in Finished(s.log)
    ensures Repeatable(overlap, s, y) <==> Approvable(overlap, s, y) || UnderWay(overlap, s, y)
  {
    hide Approvable, UnderWay, Proposable;
    FinishedNotProposable(overlap, s.log, y);
  }

  /** Right after its outcome is logged, a command can be repeated exactly if an overlapping approval is pending. */
  lemma OutcomeSettles(overlap: Overlap, s: System, m: Memory)
    requires Sound(overlap, s) && s.memory == Some(m) && !m.unsaved && m.pc.Observed? && !m.pc.x.isCall
    ensures Advanced(overlap, s, m).Some?
    ensures var t := Advanced(overlap, s, m).value;
      && m.pc.x.text in Finished(t.log)
      && (Repeatable(overlap, t, m.pc.x.text) <==> Approvable(overlap, t, m.pc.x.text))
      && t.approvals == s.approvals && t.executed == s.executed && t.memory.Some? && t.memory.value.pc == Idle
  {
    hide Proposable, Approvable, Base, Emit, Finished, Passes;
    var x, success := m.pc.x, m.pc.success;
    var e := Entry(|s.log| + 1, Outcome(x, success));
    var t := Advanced(overlap, s, m).value;
    SoundNumbered(overlap, s);
    EmitCases(s, Told(m), e.event, Idle);
    OutcomeFinishes(s.log, x, success, e);
    FinishedRepeatableIff(overlap, t, x.text);
  }

  lemma OutcomeStep(overlap: Overlap, s: System, x: Action)
    requires Sound(overlap, s) && s.memory.Some? && !s.memory.value.unsaved && Step(overlap, s, Advance).Some?
    requires s.memory.value.pc.Observed? && s.memory.value.pc.x == x && !x.isCall
    ensures var t := Step(overlap, s, Advance).value;
      Repeatable(overlap, t, x.text) <==> Approvable(overlap, t, x.text)
  {
    hide Sound, Advanced, Repeatable, Approvable;
    OutcomeSettles(overlap, s, s.memory.value);
  }

  /**
   A command whose outcome has been logged while no overlapping approval was pending is never repeated,
   wherever the process crashed before or crashes later.
   */
  lemma ToldNeverRepeated(overlap: Overlap, states: seq<System>, labels: seq<Label>, k: nat, n: nat, x: Action)
    requires Run(overlap, states, labels) && k < n < |states| && labels[k].Advance?
    requires states[k].memory.Some? && !states[k].memory.value.unsaved && !x.isCall
    requires states[k].memory.value.pc.Observed? && states[k].memory.value.pc.x == x
    requires !Approvable(overlap, states[k + 1], x.text)
    ensures !Repeats(overlap, states[k + 1], states[n], x.text)
  {
    hide Step, Sound, Repeatable, Approvable, Repeats;
    RunSound(overlap, states, labels, k);
    assert Step(overlap, states[k], labels[k]) == Some(states[k + 1]);
    OutcomeStep(overlap, states[k], x);
    NoRepeatAfter(overlap, states, labels, k + 1, n, x.text);
  }
}
