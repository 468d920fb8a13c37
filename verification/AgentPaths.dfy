/** Ways through the agent protocol: sequences of steps, and the stretches longer runs are built from. */
module AgentPaths {
  import opened Basics
  import opened AgentModel
  import opened AgentSafety
  import opened AgentRuns

  /** The run of `steps` from creation, as far as every step can be taken. */
  function After(overlap: Overlap, s: System, steps: seq<Label>): (t: Option<System>)
    decreases |steps|
  {
    if steps == [] then Some(s)
    else
      match Step(overlap, s, steps[0])
      case None => None
      case Some(t) => After(overlap, t, steps[1..])
  }

  lemma {:induction false} AfterIsRun(
    overlap: Overlap, states: seq<System>, labels: seq<Label>, steps: seq<Label>, end: System)
    returns (more: seq<System>, longer: seq<Label>)
    requires Run(overlap, states, labels) && After(overlap, states[|labels|], steps) == Some(end)
    ensures Run(overlap, more, longer) && longer == labels + steps && more[|longer|] == end
    decreases |steps|
  {
    hide Step, Run;
    RunLength(overlap, states, labels);
    if steps == [] {
      more, longer := states, labels;
      assert labels + steps == labels;
    } else {
      var t := Step(overlap, states[|labels|], steps[0]).value;
      Extend(overlap, states, labels, steps[0], t);
      more, longer := AfterIsRun(overlap, states + [t], labels + [steps[0]], steps[1..], end);
      assert labels + steps == labels + [steps[0]] + steps[1..];
    }
  }

  lemma {:induction false} AfterConcat(overlap: Overlap, s: System, a: seq<Label>, b: seq<Label>)
    ensures After(overlap, s, a + b) ==
      if After(overlap, s, a).Some? then After(overlap, After(overlap, s, a).value, b) else None
    decreases |a|
  {
    hide Step;
    if a == [] {
      assert a + b == b;
    } else {
      assert (a + b)[0] == a[0] && (a + b)[1..] == a[1..] + b;
      if Step(overlap, s, a[0]).Some? {
        AfterConcat(overlap, Step(overlap, s, a[0]).value, a[1..], b);
      }
    }
  }

  /** Some steps lead from `s` to `t`. */
  ghost predicate Leads(overlap: Overlap, s: System, t: System) {
    exists steps :: After(overlap, s, steps) == Some(t)
  }

  lemma OneStep(overlap: Overlap, s: System, step: Label, t: System)
    requires Step(overlap, s, step) == Some(t)
    ensures Leads(overlap, s, t)
  {
    hide Step;
    assert After(overlap, t, []) == Some(t);
    assert [step][1..] == [];
    assert After(overlap, s, [step]) == Some(t);
  }

  lemma Onwards(overlap: Overlap, s: System, t: System, u: System)
    requires Leads(overlap, s, t) && Leads(overlap, t, u)
    ensures Leads(overlap, s, u)
  {
    hide After;
    var a :| After(overlap, s, a) == Some(t);
    var b :| After(overlap, t, b) == Some(u);
    AfterConcat(overlap, s, a, b);
    assert After(overlap, s, a + b) == Some(u);
  }

  lemma ThenStep(overlap: Overlap, s: System, t: System, step: Label) returns (u: System)
    requires Leads(overlap, s, t) && Step(overlap, t, step).Some?
    ensures u == Step(overlap, t, step).value && Leads(overlap, s, u)
  {
    hide Step, Leads;
    u := Step(overlap, t, step).value;
    OneStep(overlap, t, step, u);
    Onwards(overlap, s, t, u);
  }

  lemma LeadsIsRun(overlap: Overlap, end: System) returns (states: seq<System>, labels: seq<Label>)
    requires Leads(overlap, Initial(0), end)
    ensures Run(overlap, states, labels) && states[|labels|] == end
  {
    var steps :| After(overlap, Initial(0), steps) == Some(end);
    states, labels := AfterIsRun(overlap, [Initial(0)], [], steps, end);
  }

  // ---- Stretches of a run ------------------------------------------------------------------------

  /** A controller between two methods, its cursor exact. */
  predicate At(s: System, state: AgentState, pc: Pc) {
    && s.memory.Some? && s.row == Row(state, |s.log| + 1)
    && var m := s.memory.value;
       m.state == state && m.next == |s.log| + 1 && !m.unsaved && m.pc == pc
  }

  /** Everything but log, row and memory. */
  predicate SameStore(s: System, t: System) {
    t.approvals == s.approvals && t.pending == s.pending && t.executed == s.executed && t.supply == s.supply
  }

  predicate SameMind(s: System, t: System)
    requires s.memory.Some? && t.memory.Some?
  {
    t.memory.value.verification == s.memory.value.verification && t.memory.value.priors == s.memory.value.priors
  }

  lemma Starts(overlap: Overlap) returns (t: System)
    ensures Leads(overlap, Initial(0), t)
    ensures At(t, Reasoning, Idle) && t.memory.value.priors == []
    ensures t.log == [] && t.approvals == map[] && t.pending == map[] && t.executed == [] && t.supply == 0
  {
    hide Leads;
    var a := Step(overlap, Initial(0), Move(Running)).value;
    OneStep(overlap, Initial(0), Move(Running), a);
    t := ThenStep(overlap, Initial(0), a, Move(Reasoning));
  }

  lemma Proposes(overlap: Overlap, s: System, text: string) returns (t: System)
    requires At(s, Reasoning, Idle) && Numbered(s.log)
    ensures Leads(overlap, s, t) && At(t, Reasoning, Proposed(Action(s.supply, false, text, Mutating)))
    ensures t.log == s.log + [Entry(|s.log| + 1, CommandProposed(s.supply, text, Mutating))]
    ensures SameStore(s.(supply := s.supply + 1), t) && SameMind(s, t)
  {
    hide Leads;
    LastIsCount(s.log);
    var a := Step(overlap, s, Propose(text, Mutating)).value;
    OneStep(overlap, s, Propose(text, Mutating), a);
    t := ThenStep(overlap, s, a, SaveRow);
  }

  lemma Inserts(overlap: Overlap, s: System, x: Action) returns (t: System)
    requires At(s, Reasoning, Proposed(x)) && !Similar(overlap, x.text, s.memory.value.priors)
    ensures Leads(overlap, s, t) && At(t, Reasoning, Inserted(x, s.supply)) && t.log == s.log && SameMind(s, t)
    ensures t.approvals == s.approvals[s.supply := Request(s.supply, x.id, false, x.text, Pending)]
    ensures t.pending == s.pending[x.id := x] && t.executed == s.executed && t.supply == s.supply + 1
  {
    hide Leads, Similar;
    var a := Step(overlap, s, Advance).value;
    OneStep(overlap, s, Advance, a);
    t := ThenStep(overlap, s, a, Advance);
  }

  /** From reasoning to a stored, inserted approval that nothing has announced. */
  lemma AsksHalf(overlap: Overlap, s: System, text: string) returns (t: System)
    requires At(s, Reasoning, Idle) && Numbered(s.log) && !Similar(overlap, text, s.memory.value.priors)
    ensures Leads(overlap, s, t)
    ensures var x := Action(s.supply, false, text, Mutating);
      && At(t, Reasoning, Inserted(x, x.id + 1)) && SameMind(s, t)
      && t.log == s.log + [Entry(|s.log| + 1, CommandProposed(x.id, text, Mutating))]
      && t.approvals == s.approvals[x.id + 1 := Request(x.id + 1, x.id, false, text, Pending)]
      && t.pending == s.pending[x.id := x] && t.executed == s.executed && t.supply == s.supply + 2
  {
    hide Leads, Similar, Step;
    var a := Proposes(overlap, s, text);
    t := Inserts(overlap, a, Action(s.supply, false, text, Mutating));
    Onwards(overlap, s, a, t);
  }

  /** From there to a run that waits for the approval. */
  lemma AsksRest(overlap: Overlap, s: System, x: Action, r: Id) returns (t: System)
    requires At(s, Reasoning, Inserted(x, r)) && Numbered(s.log)
    ensures Leads(overlap, s, t) && At(t, AwaitingApproval, Idle) && SameStore(s, t) && SameMind(s, t)
    ensures t.log == s.log + [Entry(|s.log| + 1, CommandApprovalRequired(r, x.id))]
  {
    hide Leads;
    LastIsCount(s.log);
    var a := Step(overlap, s, Advance).value;
    OneStep(overlap, s, Advance, a);
    var b := ThenStep(overlap, s, a, SaveRow);
    t := ThenStep(overlap, s, b, Advance);
  }

  lemma Grants(overlap: Overlap, s: System, x: Action, r: Id) returns (t: System)
    requires At(s, AwaitingApproval, Idle) && Numbered(s.log) && !x.isCall
    requires r in s.approvals && s.approvals[r] == Request(r, x.id, false, x.text, Pending)
    requires x.id in s.pending && s.pending[x.id] == x
    ensures Leads(overlap, s, t) && At(t, AwaitingApproval, GrantDone(x, r)) && SameMind(s, t)
    ensures t.log == s.log + [Entry(|s.log| + 1, ApprovalGranted(r))]
    ensures t.approvals == s.approvals[r := s.approvals[r].(state := Granted)]
    ensures t.pending == s.pending - {x.id} && t.executed == s.executed && t.supply == s.supply
  {
    hide Leads;
    LastIsCount(s.log);
    var a := Step(overlap, s, Approve(r, true)).value;
    OneStep(overlap, s, Approve(r, true), a);
    var b := ThenStep(overlap, s, a, Advance);
    var c := ThenStep(overlap, s, b, Advance);
    t := ThenStep(overlap, s, c, SaveRow);
  }

  lemma LogsStart(overlap: Overlap, s: System, x: Action, r: Id) returns (t: System)
    requires At(s, AwaitingApproval, GrantDone(x, r)) && Numbered(s.log) && !x.isCall
    ensures Leads(overlap, s, t) && At(t, Acting, Started(x, r)) && SameStore(s, t) && SameMind(s, t)
    ensures t.log == s.log + [Entry(|s.log| + 1, CommandStarted(x.id))]
  {
    hide Leads;
    LastIsCount(s.log);
    var a := Step(overlap, s, Advance).value;
    OneStep(overlap, s, Advance, a);
    var b := ThenStep(overlap, s, a, Advance);
    t := ThenStep(overlap, s, b, SaveRow);
  }

  /** Approving a pending command, up to the logged start. */
  lemma GrantsAndStarts(overlap: Overlap, s: System, x: Action, r: Id) returns (t: System)
    requires At(s, AwaitingApproval, Idle) && Numbered(s.log) && !x.isCall
    requires r in s.approvals && s.approvals[r] == Request(r, x.id, false, x.text, Pending)
    requires x.id in s.pending && s.pending[x.id] == x
    ensures Leads(overlap, s, t) && At(t, Acting, Started(x, r)) && SameMind(s, t)
    ensures t.log == s.log + [Entry(|s.log| + 1, ApprovalGranted(r))] + [Entry(|s.log| + 2, CommandStarted(x.id))]
    ensures t.approvals == s.approvals[r := s.approvals[r].(state := Granted)]
    ensures t.pending == s.pending - {x.id} && t.executed == s.executed && t.supply == s.supply
  {
    hide Leads, Step;
    var a := Grants(overlap, s, x, r);
    t := LogsStart(overlap, a, x, r);
    Onwards(overlap, s, a, t);
  }

  lemma Executes(overlap: Overlap, s: System, x: Action, r: Id) returns (t: System)
    requires At(s, Acting, Started(x, r))
    ensures Leads(overlap, s, t)
    ensures t.log == s.log && t.row == s.row && t.executed == s.executed + [x]
    ensures t.approvals == s.approvals && t.pending == s.pending && t.supply == s.supply
  {
    hide Leads;
    t := Step(overlap, s, Execute(true)).value;
    OneStep(overlap, s, Execute(true), t);
  }

  /** A crash, a restart, a rehydrated controller, and back to reasoning. */
  lemma Crashes(overlap: Overlap, s: System) returns (t: System)
    requires s.row == Row(Reasoning, |s.log| + 1) || s.row == Row(Acting, |s.log| + 1)
      || s.row == Row(Observing, |s.log| + 1)
    ensures Leads(overlap, s, t) && At(t, Reasoning, Idle) && SameStore(s, t) && t.log == s.log
    ensures t.memory.value.priors == Finished(s.log)
  {
    hide Extract, Finished, Leads;
    var a := Step(overlap, s, Crash).value;
    OneStep(overlap, s, Crash, a);
    var b := ThenStep(overlap, s, a, Rehydrate([]));
    t := ThenStep(overlap, s, b, Move(Reasoning));
  }

  lemma {:induction false} NothingFinished(log: seq<Entry>)
    requires forall i :: 0 <= i < |log| ==> !log[i].event.CommandCompleted? && !log[i].event.CommandFailed?
    ensures Finished(log) == []
  {
    if log != [] {
      NothingFinished(log[..|log| - 1]);
    }
  }
}
