/**
 The controller as it runs: methods that change the run, its stores and its budgets write by write,
 against an arbitrary reasoner, policy and host. Every write is proved to be a step of `AgentModel`,
 so the guarantees about its runs hold of the controller at every write.
 */
module AgentController {
  import opened Basics
  import opened AgentModel
  import opened AgentSafety
  import opened AgentRuns
  import opened AgentQuiescent

  const MAX_REASONER_RECOVERIES: nat := 2

  /** What a validated reasoner reply asks for. */
  datatype Decision =
    | Unusable(recoverable: bool)
    | Invalid
    | Final(summary: string)
    | AskUser(question: string)
    | ToolCalls(calls: seq<string>)
    | CommandProposal(command: string, mutability: Mutability)

  datatype Authorization = Auto | RequireApproval | Blocked

  datatype Outcome =
    | Proceed                      // the loop goes on
    | Completed | Failed | Cancelled | AwaitingUser
    | AwaitingApproval(approval: Id)
    | Error                        // a refused write, a refused transition, or nothing to act on

  /** What a round meets: the user's cancellation and the clock before it, the reply, a cancellation after it. */
  datatype Surroundings = Surroundings(
    cancelled: nat -> bool, late: nat -> bool, reply: nat -> Decision, stopped: nat -> bool)

  /** How a loop ended: at the top of a round or by a cancellation, in a state it cannot leave, or on a reply. */
  datatype Ending =
    | Over(cancelled: bool)
    | Stuck(batch: Decision, moment: nat)
    | Replied(decision: Decision)

  /** What the service asks of a controller. */
  datatype ServiceCall =
    | Start
    | Grant(a: Id, matches: bool)
    | Deny(a: Id)
    | NextTurn | Retry | Answer | Rest | GoOn | Stop

  class Controller {
    const overlap: Overlap
    /** What the policy gate says of the call at a position of the batch begun at a log length. */
    const policy: (nat, nat, string) -> Authorization
    /** Whether the policy gate blocks a command that is proposed at a log length. */
    const refuses: (nat, string) -> bool
    /** What the n-th round this controller begins meets. */
    const around: Surroundings
    const maxRounds: nat
    const maxToolCalls: nat
    // What is durable.
    var log: seq<Entry>
    var row: Row
    var approvals: map<Id, Request>
    var pending: map<Id, Action>
    var supply: nat
    // What is in memory.
    var state: AgentState
    var next: nat
    var verification: bool
    var priors: seq<string>
    var roundsUsed: nat
    var toolCallsUsed: nat
    var recoveries: nat
    var notified: bool
    var analysing: bool
    /** How many rounds this controller has begun. */
    var begun: nat
    // What the host has seen, where the method stands, and the run so far.
    ghost var executed: seq<Action>
    ghost var pc: Pc
    ghost var unsaved: bool
    ghost var states: seq<System>
    ghost var labels: seq<Label>

    ghost function Mem(): (m: Memory)
      reads `state, `next, `unsaved, `verification, `priors, `pc
    {
      Memory(state, next, unsaved, verification, priors, pc)
    }

    ghost function Sys(): (s: System)
      reads `state, `next, `unsaved, `verification, `priors, `pc, `log, `row, `approvals, `pending, `executed, `supply
    {
      System(log, row, approvals, pending, executed, supply, Some(Mem()))
    }

    ghost function Holdings(): (s: Stock)
      reads `approvals, `pending, `supply
    {
      Stock(approvals, pending, supply)
    }

    ghost predicate Traced()
      reads `states, `labels
    {
      Run(overlap, states, labels)
    }

    /** The fields are the last state of a run of the protocol. */
    ghost predicate Valid()
      reads `state, `next, `unsaved, `verification, `priors, `pc, `log, `row, `approvals, `pending, `executed, `supply,
        `states, `labels
    {
      Traced() && states[|labels|] == Sys()
    }

    /** Between two methods. */
    ghost predicate Ready()
      reads `state, `next, `unsaved, `verification, `priors, `pc, `log, `row, `approvals, `pending, `executed, `supply,
        `states, `labels
    {
      Valid() && pc == Idle && !unsaved
    }

    /** Every step so far went through the service's guard. */
    ghost predicate Quiet()
      reads `states, `labels
    {
      QuietRun(overlap, states, labels)
    }

    /** The tool budget holds, with room for the call that waits for approval. */
    predicate BudgetOk()
      reads `state, `toolCallsUsed
    {
      toolCallsUsed <= maxToolCalls && (state == AgentState.AwaitingApproval ==> toolCallsUsed < maxToolCalls)
    }

    /** The next number is the log's: no emission will be refused. */
    predicate Caught()
      reads `next, `log
    {
      next == |log| + 1
    }

    /** A new run. */
    constructor (
      overlap: Overlap, policy: (nat, nat, string) -> Authorization, refuses: (nat, string) -> bool,
      around: Surroundings, maxRounds: nat, maxToolCalls: nat, supply: nat)
      ensures Ready() && Quiet() && Caught() && BudgetOk() && roundsUsed == toolCallsUsed == 0 && state == Created
      ensures this.overlap == overlap && this.policy == policy && this.refuses == refuses && this.around == around
      ensures this.maxRounds == maxRounds && this.maxToolCalls == maxToolCalls
    {
      this.policy, this.refuses, this.around := policy, refuses, around;
      this.overlap, this.maxRounds, this.maxToolCalls := overlap, maxRounds, maxToolCalls;
      log, row, approvals, pending, this.supply := [], Row(Created, 1), map[], map[], supply;
      state, next, verification, priors := Created, 1, false, [];
      roundsUsed, toolCallsUsed, recoveries, notified, analysing, begun := 0, 0, 0, false, false, 0;
      executed, pc, unsaved, states, labels := [], Idle, false, [Initial(supply)], [];
    }

    /** A controller rebuilt from what a run left on disk, its budgets from a checkpoint. */
    constructor Rehydrate(
      overlap: Overlap, policy: (nat, nat, string) -> Authorization, refuses: (nat, string) -> bool,
      around: Surroundings, maxRounds: nat, maxToolCalls: nat, disk: System, extra: seq<string>,
      roundsUsed: nat, toolCallsUsed: nat, ghost states: seq<System>, ghost labels: seq<Label>)
      requires Run(overlap, states, labels) && states[|labels|] == disk && disk.memory.None?
      ensures Ready() && state == disk.row.state && verification == Extract(disk.log)
      ensures log == disk.log && approvals == disk.approvals && pending == disk.pending
      ensures QuietRun(overlap, states, labels) ==> Quiet()
      ensures BudgetOk() <==>
        toolCallsUsed <= maxToolCalls
        && (disk.row.state == AgentState.AwaitingApproval ==> toolCallsUsed < maxToolCalls)
    {
      hide Run, QuietRun, Step, Guarded, Extract, Finished;
      this.policy, this.refuses, this.around := policy, refuses, around;
      this.overlap, this.maxRounds, this.maxToolCalls := overlap, maxRounds, maxToolCalls;
      log, row, approvals, pending, supply := disk.log, disk.row, disk.approvals, disk.pending, disk.supply;
      state, next := disk.row.state, if disk.row.cursor == 0 then 1 else disk.row.cursor;
      verification, priors := Extract(disk.log), Finished(disk.log) + extra;
      this.roundsUsed, this.toolCallsUsed := roundsUsed, toolCallsUsed;
      recoveries, notified, analysing, begun := 0, false, false, 0;
      executed, pc, unsaved := disk.executed, Idle, false;
      new;
      RehydrateIs(overlap, disk, extra);
      PlainIsGuarded(disk, AgentModel.Rehydrate(extra));
      this.states, this.labels := states, labels;
      Follow(AgentModel.Rehydrate(extra));
    }

    /** The fields have just taken `step`. */
    ghost method Follow(step: Label)
      requires Traced() && Step(overlap, states[|labels|], step) == Some(Sys())
      modifies `states, `labels
      ensures Valid()
      ensures old(Quiet()) && Guarded(old(states[|labels|]), step) ==> Quiet()
    {
      hide Step, Initial, Guarded;
      Extend(overlap, states, labels, step, Sys());
      QuietExtend(overlap, states, labels, step, Sys());
      states, labels := states + [Sys()], labels + [step];
    }

    // ---- What every write guarantees -----------------------------------------------------------

    /** The flag in memory is what replay of the log would give, and the log has no gaps. */
    lemma LiveIsReplay()
      requires Valid()
      ensures verification == Extract(log)
      ensures forall i :: 0 <= i < |log| ==> log[i].sequence == i + 1
    {
      hide Run;
      RunLength(overlap, states, labels);
      RunSafe(overlap, states, labels, |labels|);
    }

    /** Nothing has been executed twice. */
    lemma ExecutedOnce(i: nat, j: nat)
      requires Valid() && i < j < |executed|
      ensures executed[i].id != executed[j].id
    {
      hide Run;
      RunLength(overlap, states, labels);
      RunSafe(overlap, states, labels, |labels|);
    }

    /** Between methods of a quiet run: an exact cursor, at most one pending approval, no repeated command. */
    lemma QuietBoundary()
      requires Ready() && Quiet()
      ensures row.cursor == next == |log| + 1
      ensures forall a, b | a in approvals && b in approvals
        && approvals[a].state == Pending && approvals[b].state == Pending :: a == b
      ensures forall i, j :: 0 <= i < j < |executed| && !executed[i].isCall && !executed[j].isCall ==>
        !overlap(executed[j].text, executed[i].text)
    {
      hide Run, QuietRun, Safe;
      QuietIsRun(overlap, states, labels);
      RunLength(overlap, states, labels);
      QuietRunCalm(overlap, states, labels, |labels|);
    }

    /** Every stored action lies under its own id, and every id in use was drawn from the supply. */
    lemma KnownIds()
      requires Valid()
      ensures forall id :: id in pending ==> pending[id].id == id && id < supply
      ensures forall a :: a in approvals ==> a < supply
    {
      hide Run;
      RunLength(overlap, states, labels);
      RunSafe(overlap, states, labels, |labels|);
      StoredIds(Sys());
    }

    // ---- Single writes -------------------------------------------------------------------------

    /** The second write of an emission: the row, with the cursor past the event. */
    method SaveCursor()
      requires Valid() && unsaved
      modifies `row, `unsaved, `states, `labels
      ensures Valid() && !unsaved && row == Row(state, next) && (old(Quiet()) ==> Quiet())
    {
      hide Run, QuietRun, Step, Guarded;
      SaveRowIs(overlap, Sys(), Mem());
      PlainIsGuarded(Sys(), SaveRow);
      row := Row(state, next);
      unsaved := false;
      Follow(SaveRow);
    }

    /** Appends an event under the next number and saves the cursor; refused when the number is stale. */
    method EmitEvent(event: Event, ghost step: Label, ghost after: Pc) returns (ok: bool)
      requires Traced() && !unsaved && !step.Approve? && !step.Reject? && !step.Crash?
      requires Step(overlap, states[|labels|], step) == Some(Emit(Sys(), Mem(), event, after))
      modifies `log, `row, `next, `pc, `unsaved, `states, `labels
      ensures Valid() && !unsaved && next == old(next) + 1
      ensures ok ==> pc == after && log == old(log) + [Entry(old(next), event)] && row == Row(state, next)
      ensures !ok ==> pc == Idle && log == old(log) && row == old(row)
      ensures old(Quiet()) ==> Quiet()
      ensures old(Caught()) ==> ok && Caught()
    {
      hide Run, QuietRun, Step, Emit, Guarded, LastSequence;
      RunLength(overlap, states, labels);
      EmittedIsNumbered(overlap, states, labels, step, Sys(), Mem(), event, after);
      EmitIs(Sys(), Mem(), event, after);
      PlainIsGuarded(states[|labels|], step);
      var sequence := next;
      next := next + 1;
      if sequence <= LastSequence(log) {
        pc := Idle;
        Follow(step);
        return false;
      }
      log := log + [Entry(sequence, event)];
      pc, unsaved := after, true;
      Follow(step);
      SaveCursor();
      ok := true;
    }

    /** An event the protocol does not depend on. */
    method Note(tag: string) returns (ok: bool)
      requires Valid() && !unsaved && (pc == Idle || pc == DenyLogged)
      modifies `log, `row, `next, `pc, `unsaved, `states, `labels
      ensures Valid() && !unsaved && (ok ==> pc == old(pc)) && (!ok ==> pc == Idle)
      ensures log == if ok then old(log) + [Entry(old(next), Other(tag))] else old(log)
      ensures next == old(next) + 1
      ensures old(Quiet()) ==> Quiet()
      ensures old(Caught()) ==> ok && Caught()
    {
      hide Run, QuietRun, Emit;
      ok := EmitEvent(Other(tag), AgentModel.Note(tag), pc);
    }

    /** Moves the run along the state table and saves it; nothing happens when the table forbids it. */
    method Transition(to: AgentState, ghost step: Label, ghost after: Pc) returns (ok: bool)
      requires Valid() && !unsaved && !step.Approve? && !step.Reject? && !step.Crash?
      requires state.CanTransitionTo(to) ==> Step(overlap, Sys(), step) == Some(Transit(Sys(), Mem(), to, after))
      modifies `row, `state, `pc, `states, `labels
      ensures Valid()
      ensures ok <==> old(state).CanTransitionTo(to)
      ensures ok ==> state == to && pc == after && row == Row(to, next)
      ensures !ok ==> state == old(state) && pc == old(pc) && row == old(row)
      ensures old(Quiet()) ==> Quiet()
    {
      hide Run, QuietRun, Step;
      if !state.CanTransitionTo(to) {
        return false;
      }
      state := to;
      pc := after;
      row := Row(to, next);
      Follow(step);
      ok := true;
    }

    /** A transition the protocol leaves free. */
    method Move(to: AgentState) returns (ok: bool)
      requires Ready() && to != AgentState.AwaitingApproval && to != AgentState.Completed
      requires state == AgentState.AwaitingApproval ==> to.IsTerminal()
      modifies `row, `state, `pc, `states, `labels
      ensures Ready() && (ok <==> old(state).CanTransitionTo(to)) && state == if ok then to else old(state)
      ensures old(Quiet()) ==> Quiet()
    {
      hide Run, QuietRun;
      ok := Transition(to, AgentModel.Move(to), Idle);
    }

    method PutPending(x: Action, ghost after: Pc)
      requires Valid() && !unsaved
      requires Step(overlap, Sys(), Advance) ==
        Some(Sys().(pending := pending[x.id := x], memory := Some(Mem().(pc := after))))
      modifies `pending, `pc, `states, `labels
      ensures Valid() && pending == old(pending)[x.id := x] && pc == after && (old(Quiet()) ==> Quiet())
    {
      hide Run, QuietRun, Step;
      pending := pending[x.id := x];
      pc := after;
      Follow(Advance);
    }

    method RemovePending(id: Id, ghost after: Pc)
      requires Valid() && !unsaved
      requires Step(overlap, Sys(), Advance) ==
        Some(Sys().(pending := pending - {id}, memory := Some(Mem().(pc := after))))
      modifies `pending, `pc, `states, `labels
      ensures Valid() && pending == old(pending) - {id} && pc == after && (old(Quiet()) ==> Quiet())
    {
      hide Run, QuietRun, Step;
      pending := pending - {id};
      pc := after;
      Follow(Advance);
    }

    /** Binds a new approval, under a fresh id, to the exact text of the action. */
    method InsertApproval(x: Action, ghost after: Pc) returns (a: Id)
      requires Valid() && !unsaved && after == (if x.isCall then CallInserted(x, supply) else Inserted(x, supply))
      requires pc == if x.isCall then CallAnnounced(x) else Stored(x)
      modifies `approvals, `supply, `pc, `states, `labels
      ensures Valid() && pc == after && a == old(supply) && supply == a + 1
      ensures approvals == old(approvals)[a := Request(a, x.id, x.isCall, x.text, Pending)]
      ensures old(Quiet()) ==> Quiet()
    {
      hide Run, QuietRun, Step, Guarded;
      InsertIs(overlap, Sys(), Mem(), x);
      PlainIsGuarded(Sys(), Advance);
      a := supply;
      supply := supply + 1;
      approvals := approvals[a := Request(a, x.id, x.isCall, x.text, Pending)];
      pc := after;
      Follow(Advance);
    }

    /** Decides an approval whose action is still stored. */
    method SaveDecision(a: Id, to: RequestState, ghost step: Label, ghost after: Pc)
      requires Valid() && !unsaved && a in approvals
      requires Step(overlap, Sys(), step) == Some(Decided(Sys(), Mem(), a, to, after))
      modifies `approvals, `pc, `states, `labels
      ensures Valid() && pc == after && approvals == old(approvals)[a := old(approvals)[a].(state := to)]
      ensures old(Quiet()) && Guarded(old(Sys()), step) ==> Quiet()
    {
      hide Run, QuietRun, Step, Guarded;
      approvals := approvals[a := approvals[a].(state := to)];
      pc := after;
      Follow(step);
    }

    /** The host runs the action; whether it succeeds is the host's affair. */
    method ExecuteOnHost(x: Action) returns (success: bool)
      requires Valid() && !unsaved && pc.Started? && pc.x == x
      modifies `executed, `pc, `states, `labels
      ensures Valid() && pc == Executed(x, success) && executed == old(executed) + [x]
      ensures old(Quiet()) ==> Quiet()
    {
      hide Run, QuietRun;
      success := *;
      executed := executed + [x];
      pc := Executed(x, success);
      Follow(Execute(success));
    }

    // ---- Asking for approval -------------------------------------------------------------------

    method LogProposal(text: string, mutability: Mutability) returns (x: Action, ok: bool)
      requires Ready() && state == Reasoning
      modifies `log, `row, `next, `pc, `unsaved, `states, `labels, `supply
      ensures Valid() && !unsaved && x == Action(old(supply), false, text, mutability) && supply == x.id + 1
      ensures pc == (if ok then Proposed(x) else Idle) && (old(Quiet()) ==> Quiet())
      ensures ok ==> log == old(log) + [Entry(old(next), CommandProposed(x.id, text, mutability))]
      ensures next == old(next) + 1
      ensures old(Caught()) ==> ok && Caught()
    {
      hide Run, QuietRun, Emit, Step;
      ProposeIs(overlap, Sys(), Mem(), text, mutability);
      x := Action(supply, false, text, mutability);
      supply := supply + 1;
      ok := EmitEvent(CommandProposed(x.id, text, mutability), Propose(text, mutability), Proposed(x));
    }

    method DropProposal()
      requires Valid() && !unsaved && pc.Proposed?
      modifies `pc, `states, `labels
      ensures Ready() && (old(Quiet()) ==> Quiet())
    {
      hide Run, QuietRun;
      pc := Idle;
      Follow(Drop);
    }

    /** An observation that quotes a command: later proposals are compared with it. */
    method QuoteAttempt(text: string)
      requires Ready()
      modifies `priors, `states, `labels
      ensures Ready() && priors == old(priors) + [text] && (old(Quiet()) ==> Quiet())
    {
      hide Run, QuietRun;
      priors := priors + [text];
      Follow(Attempt(text));
    }

    method StoreCommand(x: Action)
      requires Valid() && !unsaved && pc == Proposed(x) && !Similar(overlap, x.text, priors)
      modifies `pending, `pc, `states, `labels
      ensures Valid() && pc == Stored(x) && pending == old(pending)[x.id := x] && (old(Quiet()) ==> Quiet())
    {
      hide Run, QuietRun, Similar;
      PutPending(x, Stored(x));
    }

    method Announce(x: Action, a: Id) returns (ok: bool)
      requires Valid() && !unsaved && pc == Inserted(x, a)
      modifies `log, `row, `next, `pc, `unsaved, `states, `labels
      ensures Valid() && !unsaved && pc == (if ok then Announced(x, a) else Idle) && (old(Quiet()) ==> Quiet())
      ensures ok ==> log == old(log) + [Entry(old(next), CommandApprovalRequired(a, x.id))]
      ensures old(Caught()) ==> ok && Caught()
    {
      hide Run, QuietRun, Emit;
      ok := EmitEvent(CommandApprovalRequired(a, x.id), Advance, Announced(x, a));
    }

    /** Parks the run until the user decides. */
    method Park()
      requires Valid() && !unsaved
      requires (pc.Announced? && state == Reasoning) || (pc.CallStored? && state == Acting)
      modifies `row, `state, `pc, `states, `labels
      ensures Ready() && state == AgentState.AwaitingApproval && (old(Quiet()) ==> Quiet())
    {
      hide Run, QuietRun;
      var parked := Transition(AgentState.AwaitingApproval, Advance, Idle);
    }

    /** What is waiting: exactly `text`, pending, with its action stored. */
    ghost predicate Waiting(a: Id, isCall: bool, text: string)
      reads `approvals, `pending
    {
      && a in approvals && approvals[a].state == Pending && approvals[a].isCall == isCall && approvals[a].text == text
      && approvals[a].actionId in pending && pending[approvals[a].actionId].text == text
    }

    /** A proposal that repeats an earlier command or that policy blocks becomes an observation. */
    method TurnDown(text: string) returns (ok: bool)
      requires Valid() && !unsaved && pc.Proposed?
      modifies `log, `row, `next, `pc, `unsaved, `states, `labels, `priors, `notified
      ensures Ready() && (old(Quiet()) ==> Quiet())
      ensures ok ==> priors == old(priors) + [text] && log == old(log) + [Entry(old(next), Other("ObservationAdded"))]
      ensures !notified && (old(Caught()) ==> ok && Caught())
    {
      hide Valid, Quiet;
      DropProposal();
      notified := false;
      ok := Note("ObservationAdded");
      if ok {
        QuoteAttempt(text);
      }
    }

    /** Stores a proposed command, binds its approval, announces it and parks the run. */
    method AskFor(x: Action) returns (r: Outcome)
      requires Valid() && !unsaved && pc == Proposed(x) && !x.isCall && state == Reasoning
      requires !Similar(overlap, x.text, priors)
      modifies `log, `row, `next, `pc, `unsaved, `states, `labels, `supply, `approvals, `pending, `state
      ensures Ready() && (old(Quiet()) ==> Quiet())
      ensures r == Error || r.AwaitingApproval?
      ensures r == Error ==> state == Reasoning
      ensures r.AwaitingApproval? ==> state == AgentState.AwaitingApproval && Waiting(r.approval, false, x.text)
      ensures r.AwaitingApproval? ==>
        && r.approval == old(supply) && supply == old(supply) + 1
        && approvals == old(approvals)[r.approval := Request(r.approval, x.id, false, x.text, Pending)]
        && pending == old(pending)[x.id := x]
        && log == old(log) + [Entry(old(next), CommandApprovalRequired(r.approval, x.id))]
      ensures old(Caught()) ==> r != Error && Caught()
    {
      hide Valid, Quiet, Similar;
      var a, ok := BindCommand(x);
      if !ok {
        return Error;
      }
      Park();
      r := Outcome.AwaitingApproval(a);
    }

    method BindCommand(x: Action) returns (a: Id, ok: bool)
      requires Valid() && !unsaved && pc == Proposed(x) && !x.isCall && !Similar(overlap, x.text, priors)
      modifies `log, `row, `next, `pc, `unsaved, `states, `labels, `supply, `approvals, `pending
      ensures Valid() && !unsaved && pc == (if ok then Announced(x, a) else Idle) && (old(Quiet()) ==> Quiet())
      ensures a == old(supply) && supply == old(supply) + 1
      ensures approvals == old(approvals)[a := Request(a, x.id, false, x.text, Pending)]
      ensures pending == old(pending)[x.id := x]
      ensures ok ==> log == old(log) + [Entry(old(next), CommandApprovalRequired(a, x.id))]
      ensures old(Caught()) ==> ok && Caught()
    {
      hide Valid, Quiet, Similar;
      StoreCommand(x);
      a := InsertApproval(x, Inserted(x, supply));
      ok := Announce(x, a);
    }

    /** Asks the user to approve a command, unless it repeats an earlier one or policy blocks it. */
    method RequestCommandApproval(text: string, mutability: Mutability) returns (r: Outcome)
      requires Ready() && state == Reasoning
      modifies `log, `row, `next, `pc, `unsaved, `states, `labels, `supply, `approvals, `pending, `state, `priors,
        `notified
      ensures Ready() && (old(Quiet()) ==> Quiet())
      ensures r == Proceed || r == Error || r.AwaitingApproval?
      ensures !r.AwaitingApproval? ==> state == Reasoning
      ensures r.AwaitingApproval? ==>
        state == AgentState.AwaitingApproval && Waiting(r.approval, false, text) && !Similar(overlap, text, old(priors))
      ensures r.AwaitingApproval? ==>
        && r.approval == old(supply) + 1 && supply == old(supply) + 2 && priors == old(priors)
        && approvals == old(approvals)[r.approval := Request(r.approval, old(supply), false, text, Pending)]
        && pending == old(pending)[old(supply) := Action(old(supply), false, text, mutability)]
      ensures r == Proceed ==>
        && priors == old(priors) + [text] && !notified
        && approvals == old(approvals) && pending == old(pending) && supply == old(supply) + 1
      ensures old(Caught()) ==> r != Error && Caught()
      ensures old(Caught()) ==>
        (r.AwaitingApproval? <==> !Similar(overlap, text, old(priors)) && !refuses(old(|log|), text))
      ensures old(Caught()) ==>
        log == old(log) + [Entry(old(next), Other("ProgressUpdated"))]
          + [Entry(old(next) + 1, CommandProposed(old(supply), text, mutability))]
          + [Entry(old(next) + 2, if r.AwaitingApproval? then CommandApprovalRequired(r.approval, old(supply))
                                  else Other("ObservationAdded"))]
    {
      hide Valid, Quiet, Similar, Waiting;
      ghost var first := next;
      var moment := |log|;
      var ok := Note("ProgressUpdated");
      if !ok {
        return Error;
      }
      var x: Action;
      x, ok := LogProposal(text, mutability);
      if !ok {
        return Error;
      }
      if Similar(overlap, text, priors) || refuses(moment, text) {
        ok := TurnDown(text);
        return if ok then Proceed else Error;
      }
      r := AskFor(x);
    }

    method ProposeCommand(text: string, mutability: Mutability) returns (r: Outcome)
      requires Ready() && state == Reasoning
      modifies `log, `row, `next, `pc, `unsaved, `states, `labels, `supply, `approvals, `pending, `state, `priors,
        `notified
      ensures Ready() && (old(Quiet()) ==> Quiet())
      ensures r == Proceed || r == Error || r.AwaitingApproval?
      ensures !r.AwaitingApproval? ==> state == Reasoning
      ensures r.AwaitingApproval? ==> state == AgentState.AwaitingApproval
      ensures old(Caught()) ==> r != Error && Caught()
      ensures old(Caught()) ==>
        (r.AwaitingApproval? <==> !Similar(overlap, text, old(priors)) && !refuses(old(|log|), text))
      ensures r != Error ==> Kept(old(Holdings()), Holdings())
      ensures old(Caught()) ==> old(log) <= log
    {
      hide Valid, Quiet, Waiting, Similar, Kept;
      KnownIds();
      r := RequestCommandApproval(text, mutability);
      if r == Proceed {
        SameKeeps(old(Holdings()), Holdings());
      } else if r != Error {
        ParkKeeps(old(Holdings()), Holdings(), r.approval);
      }
    }

    method LogCallRequired(text: string) returns (x: Action, ok: bool)
      requires Ready() && state == Acting
      modifies `log, `row, `next, `pc, `unsaved, `states, `labels, `supply
      ensures Valid() && !unsaved && x == Action(old(supply), true, text, ReadIntent) && supply == x.id + 1
      ensures pc == (if ok then CallAnnounced(x) else Idle) && (old(Quiet()) ==> Quiet())
      ensures ok ==> log == old(log) + [Entry(old(next), ToolApprovalRequired(x.id))]
      ensures old(Caught()) ==> ok && Caught()
    {
      hide Run, QuietRun, Emit, Step;
      ProposeCallIs(overlap, Sys(), Mem(), text);
      x := Action(supply, true, text, ReadIntent);
      supply := supply + 1;
      ok := EmitEvent(ToolApprovalRequired(x.id), ProposeCall(text), CallAnnounced(x));
    }

    method StoreCall(x: Action, a: Id)
      requires Valid() && !unsaved && pc == CallInserted(x, a)
      modifies `pending, `pc, `states, `labels
      ensures Valid() && pc == CallStored(x, a) && pending == old(pending)[x.id := x] && (old(Quiet()) ==> Quiet())
    {
      hide Run, QuietRun;
      PutPending(x, CallStored(x, a));
    }

    /** Parks the run for the approval of one tool call of a batch. */
    method InterruptForApproval(text: string) returns (r: Outcome)
      requires Ready() && state == Acting
      modifies `log, `row, `next, `pc, `unsaved, `states, `labels, `supply, `approvals, `pending, `state
      ensures Ready() && (old(Quiet()) ==> Quiet())
      ensures r == Error || r.AwaitingApproval?
      ensures r == Error ==> state == Acting
      ensures r.AwaitingApproval? ==> state == AgentState.AwaitingApproval && Waiting(r.approval, true, text)
      ensures r.AwaitingApproval? ==>
        && r.approval == old(supply) + 1 && supply == old(supply) + 2
        && approvals == old(approvals)[r.approval := Request(r.approval, old(supply), true, text, Pending)]
        && pending == old(pending)[old(supply) := Action(old(supply), true, text, ReadIntent)]
        && log == old(log) + [Entry(old(next), ToolApprovalRequired(old(supply)))]
      ensures old(Caught()) ==> r != Error && Caught()
    {
      hide Valid, Quiet;
      var x, ok := LogCallRequired(text);
      if !ok {
        return Error;
      }
      var a := InsertApproval(x, CallInserted(x, supply));
      StoreCall(x, a);
      Park();
      r := Outcome.AwaitingApproval(a);
    }

    method AskAboutCall(text: string) returns (r: Outcome)
      requires Ready() && state == Acting
      modifies `log, `row, `next, `pc, `unsaved, `states, `labels, `supply, `approvals, `pending, `state
      ensures Ready() && (old(Quiet()) ==> Quiet())
      ensures r == Error || r.AwaitingApproval?
      ensures r == Error ==> state == Acting
      ensures r.AwaitingApproval? ==> state == AgentState.AwaitingApproval && Waiting(r.approval, true, text)
      ensures r != Error ==> Kept(old(Holdings()), Holdings()) && old(log) <= log
      ensures old(Caught()) ==> r != Error && Caught()
    {
      hide Valid, Quiet, Waiting, Kept;
      KnownIds();
      r := InterruptForApproval(text);
      if r != Error {
        ParkKeeps(old(Holdings()), Holdings(), r.approval);
      }
    }

    // ---- Acting on a decision --------------------------------------------------------------------

    method Grant(a: Id, x: Action, matches: bool)
      requires Ready() && state == AgentState.AwaitingApproval && a in approvals
      requires approvals[a].actionId in pending && pending[approvals[a].actionId] == x
      requires AgentModel.Valid(approvals[a], x, matches)
      modifies `approvals, `pc, `states, `labels
      ensures Valid() && !unsaved && pc == GrantSaved(x, a) && (old(Quiet()) ==> Quiet())
      ensures approvals == old(approvals)[a := old(approvals)[a].(state := Granted)]
    {
      hide Run, QuietRun;
      SaveDecision(a, Granted, AgentModel.Approve(a, matches), GrantSaved(x, a));
    }

    method RemoveGranted(x: Action, a: Id)
      requires Valid() && !unsaved && pc == if x.isCall then GrantHalf(x, a) else GrantSaved(x, a)
      modifies `pending, `pc, `states, `labels
      ensures Valid() && pc == (if x.isCall then GrantDone(x, a) else GrantHalf(x, a)) && (old(Quiet()) ==> Quiet())
      ensures pending == old(pending) - {x.id}
    {
      hide Run, QuietRun;
      RemovePending(x.id, if x.isCall then GrantDone(x, a) else GrantHalf(x, a));
    }

    method LogGrant(x: Action, a: Id) returns (ok: bool)
      requires Valid() && !unsaved && pc == if x.isCall then GrantSaved(x, a) else GrantHalf(x, a)
      modifies `log, `row, `next, `pc, `unsaved, `states, `labels
      ensures Valid() && !unsaved && (old(Quiet()) ==> Quiet())
      ensures pc == if !ok then Idle else if x.isCall then GrantHalf(x, a) else GrantDone(x, a)
      ensures ok ==> log == old(log) + [Entry(old(next), ApprovalGranted(a))] && next == old(next) + 1
      ensures old(Caught()) ==> ok && Caught()
    {
      hide Run, QuietRun, Emit;
      ok := EmitEvent(ApprovalGranted(a), Advance, if x.isCall then GrantHalf(x, a) else GrantDone(x, a));
    }

    /** Grant, log and removal, in the order each kind of action has them. */
    method SettleGrant(x: Action, a: Id) returns (ok: bool)
      requires Valid() && !unsaved && pc == GrantSaved(x, a)
      modifies `log, `row, `next, `pc, `unsaved, `states, `labels, `pending
      ensures Valid() && !unsaved && pc == (if ok then GrantDone(x, a) else Idle) && (old(Quiet()) ==> Quiet())
      ensures ok ==> log == old(log) + [Entry(old(next), ApprovalGranted(a))] && next == old(next) + 1
      ensures ok ==> pending == old(pending) - {x.id}
      ensures old(Caught()) ==> ok && Caught()
    {
      hide Valid, Quiet;
      if x.isCall {
        ok := LogGrant(x, a);
        if ok {
          RemoveGranted(x, a);
        }
      } else {
        RemoveGranted(x, a);
        ok := LogGrant(x, a);
      }
    }

    method GrantAndTell(a: Id, x: Action, matches: bool) returns (ok: bool)
      requires Ready() && state == AgentState.AwaitingApproval && a in approvals
      requires approvals[a].actionId in pending && pending[approvals[a].actionId] == x
      requires AgentModel.Valid(approvals[a], x, matches)
      modifies `log, `row, `next, `pc, `unsaved, `states, `labels, `approvals, `pending
      ensures Valid() && !unsaved && pc == (if ok then GrantDone(x, a) else Idle) && (old(Quiet()) ==> Quiet())
      ensures approvals == old(approvals)[a := old(approvals)[a].(state := Granted)]
      ensures ok ==> log == old(log) + [Entry(old(next), ApprovalGranted(a))] && next == old(next) + 1
      ensures ok ==> pending == old(pending) - {x.id}
      ensures old(Caught()) ==> ok && Caught()
    {
      hide Valid, Quiet;
      Grant(a, x, matches);
      ok := SettleGrant(x, a);
    }

    method BeginActing(x: Action, a: Id)
      requires Valid() && !unsaved && pc == GrantDone(x, a) && state == AgentState.AwaitingApproval
      modifies `row, `state, `pc, `states, `labels
      ensures Valid() && pc == ReadyToStart(x, a) && state == Acting && (old(Quiet()) ==> Quiet())
    {
      hide Run, QuietRun;
      var moved := Transition(Acting, Advance, ReadyToStart(x, a));
    }

    method LogStart(x: Action, a: Id) returns (ok: bool)
      requires Valid() && !unsaved && pc == ReadyToStart(x, a)
      modifies `log, `row, `next, `pc, `unsaved, `states, `labels
      ensures Valid() && !unsaved && pc == (if ok then Started(x, a) else Idle) && (old(Quiet()) ==> Quiet())
      ensures ok ==> log == old(log) + [Entry(old(next), if x.isCall then ToolStarted(x.id) else CommandStarted(x.id))]
      ensures ok ==> next == old(next) + 1
      ensures old(Caught()) ==> ok && Caught()
    {
      hide Run, QuietRun, Emit;
      ok := EmitEvent(if x.isCall then ToolStarted(x.id) else CommandStarted(x.id), Advance, Started(x, a));
    }

    method BeginObserving(x: Action, success: bool)
      requires Valid() && !unsaved && pc == Executed(x, success) && state == Acting
      modifies `row, `state, `pc, `states, `labels
      ensures Valid() && pc == Observed(x, success) && state == Observing && (old(Quiet()) ==> Quiet())
    {
      hide Run, QuietRun;
      var moved := Transition(Observing, Advance, Observed(x, success));
    }

    /** Takes in the outcome, then logs it. */
    method RecordOutcome(x: Action, success: bool) returns (ok: bool)
      requires Valid() && !unsaved && pc == Observed(x, success)
      modifies `log, `row, `next, `pc, `unsaved, `states, `labels, `verification, `priors
      ensures Ready() && (old(Quiet()) ==> Quiet())
      ensures verification == NeedsVerification(x, success, old(verification))
      ensures priors == if x.isCall then old(priors) else old(priors) + [x.text]
      ensures ok ==> log == old(log) + [Entry(old(next), AgentModel.Outcome(x, success))]
      ensures old(Caught()) ==> ok && Caught()
    {
      hide Run, QuietRun, Emit, Step, NeedsVerification;
      ghost var before := Sys();
      OutcomeIs(overlap, before, Mem(), x, success);
      verification := NeedsVerification(x, success, verification);
      priors := if x.isCall then priors else priors + [x.text];
      EmitTold(before, Sys(), Mem(), AgentModel.Outcome(x, success), Idle);
      ok := EmitEvent(AgentModel.Outcome(x, success), Advance, Idle);
    }

    /** Moves on to observing, and takes in and logs the outcome. */
    method Observe(x: Action, success: bool) returns (ok: bool)
      requires Valid() && !unsaved && pc == Executed(x, success) && state == Acting
      modifies `log, `row, `next, `pc, `unsaved, `states, `labels, `verification, `priors, `state, `notified, `analysing
      ensures Ready() && state == Observing && (old(Quiet()) ==> Quiet()) && !notified
      ensures verification == NeedsVerification(x, success, old(verification))
      ensures priors == if x.isCall then old(priors) else old(priors) + [x.text]
      ensures ok ==> log == old(log) + [Entry(old(next), AgentModel.Outcome(x, success))]
      ensures old(Caught()) ==> ok && Caught()
    {
      hide Valid, Quiet, NeedsVerification, AgentModel.Outcome;
      BeginObserving(x, success);
      notified := false;
      analysing := !x.isCall;
      ok := RecordOutcome(x, success);
    }

    method StartGranted(x: Action, a: Id) returns (ok: bool)
      requires Valid() && !unsaved && pc == GrantDone(x, a) && state == AgentState.AwaitingApproval
      modifies `log, `row, `next, `pc, `unsaved, `states, `labels, `state
      ensures Valid() && !unsaved && pc == (if ok then Started(x, a) else Idle) && state == Acting
      ensures ok ==> log == old(log) + [Entry(old(next), if x.isCall then ToolStarted(x.id) else CommandStarted(x.id))]
      ensures ok ==> next == old(next) + 1
      ensures old(Caught()) ==> ok && Caught()
      ensures old(Quiet()) ==> Quiet()
    {
      hide Valid, Quiet;
      BeginActing(x, a);
      ok := LogStart(x, a);
    }

    /** Executes a started action and observes it; the tool budget counts it. */
    method ExecuteStarted(x: Action, a: Id) returns (ok: bool, ghost success: bool)
      requires Valid() && !unsaved && pc == Started(x, a) && state == Acting
      modifies `log, `row, `next, `pc, `unsaved, `states, `labels, `verification, `priors, `state, `executed,
        `toolCallsUsed, `notified, `analysing
      ensures Ready() && state == Observing && (old(Quiet()) ==> Quiet())
      ensures executed == old(executed) + [x] && toolCallsUsed == old(toolCallsUsed) + 1 && !notified
      ensures verification == NeedsVerification(x, success, old(verification))
      ensures priors == if x.isCall then old(priors) else old(priors) + [x.text]
      ensures ok ==> log == old(log) + [Entry(old(next), AgentModel.Outcome(x, success))]
      ensures old(Caught()) ==> ok && Caught()
    {
      hide Valid, Quiet, NeedsVerification, AgentModel.Outcome;
      var succeeded := ExecuteOnHost(x);
      success := succeeded;
      toolCallsUsed := toolCallsUsed + 1;
      ok := Observe(x, succeeded);
    }

    method Deny(a: Id, x: Action, to: RequestState, ghost step: Label)
      requires Ready() && state == AgentState.AwaitingApproval && a in approvals
      requires approvals[a].actionId in pending && pending[approvals[a].actionId] == x
      requires (step == AgentModel.Reject(a) && to == Rejected)
        || (exists matches :: step == AgentModel.Approve(a, matches) && to == Invalidated
              && !AgentModel.Valid(approvals[a], x, matches))
      modifies `approvals, `pc, `states, `labels
      ensures Valid() && !unsaved && pc == DenySaved(x, a, to)
      ensures approvals == old(approvals)[a := old(approvals)[a].(state := to)]
      ensures old(Quiet()) && old(approvals)[a].state == Pending ==> Quiet()
    {
      hide Run, QuietRun, Step, Decided;
      DenyIs(overlap, Sys(), Mem(), a, to, step);
      SaveDecision(a, to, step, DenySaved(x, a, to));
    }

    method LogDenial(a: Id, to: RequestState) returns (ok: bool)
      requires Valid() && !unsaved && pc == DenyRemoved(a, to)
      modifies `log, `row, `next, `pc, `unsaved, `states, `labels
      ensures Valid() && !unsaved && pc == (if ok then DenyLogged else Idle) && (old(Quiet()) ==> Quiet())
      ensures ok ==>
        log == old(log) + [Entry(old(next), if to == Rejected then ApprovalRejected(a) else ApprovalInvalidated(a))]
      ensures ok ==> next == old(next) + 1
      ensures old(Caught()) ==> ok && Caught()
    {
      hide Run, QuietRun, Emit;
      ok := EmitEvent(Denial(a, to), Advance, DenyLogged);
    }

    method RemoveDenied(x: Action, a: Id, to: RequestState)
      requires Valid() && !unsaved && pc == DenySaved(x, a, to)
      modifies `pending, `pc, `states, `labels
      ensures Valid() && pc == DenyRemoved(a, to) && pending == old(pending) - {x.id} && (old(Quiet()) ==> Quiet())
    {
      hide Run, QuietRun;
      RemovePending(x.id, DenyRemoved(a, to));
    }

    method ReturnToReasoning()
      requires Valid() && !unsaved && pc == DenyLogged && state == AgentState.AwaitingApproval
      modifies `row, `state, `pc, `states, `labels
      ensures Ready() && state == Reasoning && (old(Quiet()) ==> Quiet())
    {
      hide Run, QuietRun;
      var moved := Transition(Reasoning, Advance, Idle);
    }

    /** After a denied approval: drop the action, tell, and reason again. */
    method SettleDenial(x: Action, a: Id, to: RequestState) returns (ok: bool)
      requires Valid() && !unsaved && pc == DenySaved(x, a, to) && state == AgentState.AwaitingApproval
      modifies `log, `row, `next, `pc, `unsaved, `states, `labels, `pending, `state, `notified
      ensures Ready() && (old(Quiet()) ==> Quiet())
      ensures ok ==> state == Reasoning && !notified
      ensures !ok ==> state == AgentState.AwaitingApproval
      ensures pending == old(pending) - {x.id}
      ensures ok ==>
        log == old(log)
          + [Entry(old(next), if to == Rejected then ApprovalRejected(a) else ApprovalInvalidated(a))]
          + [Entry(old(next) + 1, Other("ObservationAdded"))]
      ensures old(Caught()) ==> ok && Caught()
    {
      hide Valid, Quiet;
      RemoveDenied(x, a, to);
      ok := LogDenial(a, to);
      if !ok {
        return;
      }
      ok := Note("ObservationAdded");
      if !ok {
        return;
      }
      notified := false;
      ReturnToReasoning();
    }

    // ---- The loop ----------------------------------------------------------------------------------

    /** Ends the run for good: cancelled by the user, or failed. */
    method Finish(to: AgentState, tag: string) returns (r: Outcome)
      requires Ready() && (to == AgentState.Cancelled || to == AgentState.Failed)
      modifies `log, `row, `next, `pc, `unsaved, `states, `labels, `state
      ensures Ready() && (old(Quiet()) ==> Quiet())
      ensures state == if old(state).IsTerminal() then old(state) else to
      ensures r == Error || (state == to && r == if to.Cancelled? then Outcome.Cancelled else Outcome.Failed)
      ensures r != Error ==> log == old(log) + [Entry(old(next), Other(tag))]
      ensures old(state).IsTerminal() ==> r == Error && log == old(log)
      ensures old(log) <= log
      ensures old(Caught()) ==> Caught() && (r == Error <==> old(state).IsTerminal())
    {
      hide Valid, Quiet;
      var moved := Move(to);
      if !moved {
        return Error;
      }
      var ok := Note(tag);
      r := if !ok then Error else if to.Cancelled? then Outcome.Cancelled else Outcome.Failed;
    }

    method BeginCompletion()
      requires Ready() && state == Reasoning && !verification
      modifies `row, `state, `pc, `states, `labels
      ensures Valid() && pc == Finishing && state == AgentState.Completed && (old(Quiet()) ==> Quiet())
    {
      hide Run, QuietRun;
      var moved := Transition(AgentState.Completed, Complete, Finishing);
    }

    method LogCompletion() returns (ok: bool)
      requires Valid() && !unsaved && pc == Finishing
      modifies `log, `row, `next, `pc, `unsaved, `states, `labels
      ensures Ready() && (old(Quiet()) ==> Quiet())
      ensures ok ==> log == old(log) + [Entry(old(next), RunCompleted)]
      ensures old(Caught()) ==> ok && Caught()
    {
      hide Run, QuietRun, Emit;
      ok := EmitEvent(RunCompleted, Advance, Idle);
    }

    /** A final answer completes the run, once nothing calls for verification. */
    method CompleteRun() returns (r: Outcome)
      requires Ready() && state == Reasoning && !verification
      modifies `log, `row, `next, `pc, `unsaved, `states, `labels, `state
      ensures Ready() && (old(Quiet()) ==> Quiet()) && !verification
      ensures r == Error || r == Outcome.Completed
      ensures r == Outcome.Completed ==>
        state == AgentState.Completed && log != [] && log[|log| - 1].event == RunCompleted
      ensures state == Reasoning || state == AgentState.Completed
      ensures r == Outcome.Completed ==>
        log == old(log) + [Entry(old(next), Other("AssistantMessageAdded"))] + [Entry(old(next) + 1, RunCompleted)]
      ensures r == Outcome.Completed ==> old(log) <= log
      ensures old(Caught()) ==> r != Error && Caught()
    {
      hide Valid, Quiet;
      var ok := Note("AssistantMessageAdded");
      if !ok {
        return Error;
      }
      BeginCompletion();
      ok := LogCompletion();
      r := if ok then Outcome.Completed else Error;
    }

    /** Parks the run until the user replies. */
    method AskTheUser() returns (r: Outcome)
      requires Ready() && state == Reasoning
      modifies `log, `row, `next, `pc, `unsaved, `states, `labels, `state
      ensures Ready() && (old(Quiet()) ==> Quiet()) && (r == Error || r == Outcome.AwaitingUser)
      ensures state == if r == Error then Reasoning else AgentState.AwaitingUser
      ensures r != Error ==> log == old(log) + [Entry(old(next), Other("UserInputRequired"))]
      ensures old(Caught()) ==> r != Error && Caught()
    {
      hide Valid, Quiet;
      var ok := Note("UserInputRequired");
      if !ok {
        return Error;
      }
      var moved := Move(AgentState.AwaitingUser);
      r := Outcome.AwaitingUser;
    }

    /** One call of a batch: logged, then authorised, blocked, or left for the user. */
    method ScreenCall(verdict: Authorization) returns (ok: bool)
      requires Ready()
      modifies `log, `row, `next, `pc, `unsaved, `states, `labels
      ensures Ready() && (old(Quiet()) ==> Quiet()) && old(log) <= log
      ensures ok ==>
        log == old(log) + [Entry(old(next), Other("ProgressUpdated"))]
          + [Entry(old(next) + 1, Other("ToolRequested"))]
          + (match verdict
             case Auto => [Entry(old(next) + 2, Other("ToolAutoAuthorized"))]
             case Blocked => [Entry(old(next) + 2, Other("ObservationAdded"))]
             case RequireApproval => [])
      ensures old(Caught()) ==> ok && Caught()
    {
      hide Valid, Quiet;
      ok := Note("ProgressUpdated");
      if ok {
        ok := Note("ToolRequested");
      }
      if ok && verdict != RequireApproval {
        ok := Note(if verdict == Auto then "ToolAutoAuthorized" else "ObservationAdded");
      }
    }

    /** Policy blocks every call of a batch begun at this log length. */
    predicate AllBlocked(moment: nat, calls: seq<string>) {
      forall i :: 0 <= i < |calls| ==> policy(moment, i, calls[i]) == Blocked
    }

    lemma BlockedNext(moment: nat, calls: seq<string>, i: nat)
      requires i < |calls|
      ensures AllBlocked(moment, calls[..i + 1]) <==>
        AllBlocked(moment, calls[..i]) && policy(moment, i, calls[i]) == Blocked
    {
      assert calls[..i + 1][i] == calls[i];
      assert forall k :: 0 <= k < i ==> calls[..i + 1][k] == calls[..i][k] == calls[k];
    }

    /** Policy leaves some call of a batch begun at this log length to the user. */
    predicate Asks(moment: nat, calls: seq<string>) {
      exists i :: 0 <= i < |calls| && policy(moment, i, calls[i]) == RequireApproval
    }

    /** How many calls of a batch begun at this log length policy lets through. */
    function AutoCount(moment: nat, calls: seq<string>): (n: nat)
      ensures n <= |calls|
    {
      if calls == [] then 0
      else
        var last := |calls| - 1;
        AutoCount(moment, calls[..last]) + if policy(moment, last, calls[last]) == Auto then 1 else 0
    }

    lemma AutoNext(moment: nat, calls: seq<string>, i: nat)
      requires i < |calls|
      ensures AutoCount(moment, calls[..i + 1]) ==
        AutoCount(moment, calls[..i]) + if policy(moment, i, calls[i]) == Auto then 1 else 0
    {
      assert calls[..i + 1][..i] == calls[..i];
    }

    /** A batch of which policy blocks every call. */
    predicate Stranding(decision: Decision, moment: nat) {
      decision.ToolCalls? && decision.calls != [] && AllBlocked(moment, decision.calls)
    }

    /**
     Runs a batch of read calls, or parks the run at the first call that needs approval. When no write is
     refused, the batch leaves a state the loop cannot move on from exactly when policy blocks every call.
     */
    method ExecuteAuthorizedCalls(calls: seq<string>) returns (r: Outcome)
      requires Ready() && state == Reasoning && toolCallsUsed + |calls| <= maxToolCalls
      modifies `log, `row, `next, `pc, `unsaved, `states, `labels, `supply, `approvals, `pending, `state,
        `toolCallsUsed, `notified
      ensures Ready() && (old(Quiet()) ==> Quiet()) && BudgetOk()
      ensures r == Proceed || r == Error || r.AwaitingApproval?
      ensures r.AwaitingApproval? ==> state == AgentState.AwaitingApproval && toolCallsUsed == old(toolCallsUsed)
      ensures r.AwaitingApproval? ==>
        exists i :: 0 <= i < |calls| && policy(old(|log|), i, calls[i]) == RequireApproval
          && (forall k :: 0 <= k < i ==> policy(old(|log|), k, calls[k]) != RequireApproval)
          && Waiting(r.approval, true, calls[i])
      ensures old(Caught()) ==> (r.AwaitingApproval? <==> Asks(old(|log|), calls))
      ensures r == Proceed ==> toolCallsUsed == old(toolCallsUsed) + AutoCount(old(|log|), calls)
      ensures old(toolCallsUsed) <= toolCallsUsed
      ensures r != Error ==> Kept(old(Holdings()), Holdings()) && old(log) <= log
      ensures !r.AwaitingApproval? ==> state == Acting || state == Observing
      ensures r == Proceed ==> state == if AllBlocked(old(|log|), calls) then Acting else Observing
      ensures AllBlocked(old(|log|), calls) ==> toolCallsUsed == old(toolCallsUsed)
      ensures old(Caught()) ==> r != Error && Caught()
      ensures old(Caught()) ==>
        (r == Proceed && !state.CanTransitionTo(Reasoning) <==> AllBlocked(old(|log|), calls))
    {
      hide Valid, Quiet, Waiting, Kept, AllBlocked, Asks, AutoCount, AgentState.CanTransitionTo;
      SameKeeps(Holdings(), Holdings());
      ActingMoves();
      var moved := Move(Acting);
      var ok, auto, asked := ScreenBatch(calls);
      if !ok {
        return Error;
      }
      if asked.Some? {
        r := AskAboutCall(calls[asked.value]);
      } else if auto > 0 {
        r := ExecuteReads(auto);
      } else {
        r := Proceed;
      }
    }

    /** Screens the calls of a batch, up to the first that policy leaves to the user. */
    method ScreenBatch(calls: seq<string>) returns (ok: bool, auto: nat, asked: Option<nat>)
      requires Ready() && state == Acting
      modifies `log, `row, `next, `pc, `unsaved, `states, `labels, `notified
      ensures Ready() && (old(Quiet()) ==> Quiet()) && old(log) <= log
      ensures old(Caught()) ==> ok && Caught()
      ensures ok && asked.None? ==> !Asks(old(|log|), calls) && auto == AutoCount(old(|log|), calls)
      ensures ok && asked.None? ==> (auto == 0 <==> AllBlocked(old(|log|), calls))
      ensures asked.Some? ==>
        && asked.value < |calls|
        && policy(old(|log|), asked.value, calls[asked.value]) == RequireApproval
        && forall k :: 0 <= k < asked.value ==> policy(old(|log|), k, calls[k]) != RequireApproval
      ensures asked.Some? ==> Asks(old(|log|), calls) && !AllBlocked(old(|log|), calls)
    {
      hide Valid, Quiet;
      var moment := |log|;
      ok, auto, asked := true, 0, None;
      for i := 0 to |calls|
        invariant Ready() && (old(Quiet()) ==> Quiet()) && (old(Caught()) ==> Caught()) && old(log) <= log
        invariant ok && asked.None? && auto == AutoCount(moment, calls[..i])
        invariant auto == 0 <==> AllBlocked(moment, calls[..i])
        invariant forall k :: 0 <= k < i ==> policy(moment, k, calls[k]) != RequireApproval
      {
        var verdict := policy(moment, i, calls[i]);
        BlockedNext(moment, calls, i);
        AutoNext(moment, calls, i);
        ok := ScreenCall(verdict);
        if !ok {
          return;
        }
        match verdict
        case Auto => auto := auto + 1;
        case RequireApproval =>
          asked := Some(i);
          return;
        case Blocked => notified := false;
      }
      assert calls[..|calls|] == calls;
    }

    /** The dispatched reads of a batch, observed one by one. */
    method ExecuteReads(auto: nat) returns (r: Outcome)
      requires Ready() && state == Acting && toolCallsUsed + auto <= maxToolCalls
      modifies `log, `row, `next, `pc, `unsaved, `states, `labels, `state, `toolCallsUsed, `notified
      ensures Ready() && (old(Quiet()) ==> Quiet()) && toolCallsUsed <= maxToolCalls
      ensures r == Proceed || r == Error
      ensures state == Acting || state == Observing
      ensures r == Proceed ==> state == Observing && toolCallsUsed == old(toolCallsUsed) + auto
      ensures old(log) <= log && old(toolCallsUsed) <= toolCallsUsed
      ensures old(Caught()) ==> r != Error && Caught()
    {
      hide Valid, Quiet;
      for i := 0 to auto
        invariant Ready() && (old(Quiet()) ==> Quiet()) && (old(Caught()) ==> Caught())
        invariant state == Acting && toolCallsUsed == old(toolCallsUsed) && old(log) <= log
      {
        var ok := Note("ToolStarted");
        if !ok {
          return Error;
        }
      }
      toolCallsUsed := toolCallsUsed + auto;
      var moved := Move(Observing);
      for i := 0 to auto
        invariant Ready() && (old(Quiet()) ==> Quiet()) && (old(Caught()) ==> Caught())
        invariant state == Observing && toolCallsUsed == old(toolCallsUsed) + auto && old(log) <= log
      {
        notified := false;
        var ok := Note("ToolCompleted");
        if ok {
          ok := Note("ObservationAdded");
        }
        if !ok {
          return Error;
        }
      }
      r := Proceed;
    }

    /** An unusable reply is tolerated twice in a row, then the run fails. */
    method Recover(recoverable: bool) returns (r: Outcome)
      requires Ready() && state == Reasoning
      modifies `log, `row, `next, `pc, `unsaved, `states, `labels, `state, `recoveries, `notified
      ensures Ready() && (old(Quiet()) ==> Quiet()) && (r == Proceed || r == Error || r == Outcome.Failed)
      ensures r == Proceed ==> state == Reasoning && recoverable && old(recoveries) < MAX_REASONER_RECOVERIES
      ensures r == Proceed ==> recoveries == old(recoveries) + 1
      ensures state == Reasoning || state == AgentState.Failed
      ensures r == Outcome.Failed ==> state == AgentState.Failed
      ensures old(Caught()) ==> r != Error && Caught()
      ensures old(log) <= log
      ensures old(Caught()) ==> (r == Proceed <==> recoverable && old(recoveries) < MAX_REASONER_RECOVERIES)
    {
      hide Valid, Quiet;
      if recoverable && recoveries < MAX_REASONER_RECOVERIES {
        recoveries := recoveries + 1;
        notified := false;
        var ok := Note("ObservationAdded");
        return if ok then Proceed else Error;
      }
      r := Finish(AgentState.Failed, "RunFailed");
    }

    method EmitAnalysis() returns (ok: bool)
      requires Ready()
      modifies `log, `row, `next, `pc, `unsaved, `states, `labels, `analysing
      ensures Ready() && (old(Quiet()) ==> Quiet()) && old(log) <= log
      ensures ok ==>
        !analysing
        && log == old(log) + if old(analysing) then [Entry(old(next), Other("CommandAnalysisUpdated"))] else []
      ensures old(Caught()) ==> ok && Caught()
    {
      hide Valid, Quiet;
      ok := true;
      if analysing {
        ok := Note("CommandAnalysisUpdated");
        if ok {
          analysing := false;
        }
      }
    }

    /** A final answer: completes, or asks for verification once, or parks the run for the user. */
    method TakeFinal() returns (r: Outcome)
      requires Ready() && state == Reasoning
      modifies `log, `row, `next, `pc, `unsaved, `states, `labels, `state, `notified
      ensures Ready() && (old(Quiet()) ==> Quiet()) && !r.AwaitingApproval?
      ensures state in {Reasoning, AgentState.Completed, AgentState.AwaitingUser}
      ensures r == Proceed ==> state == Reasoning && verification
      ensures r == Outcome.Completed ==> state == AgentState.Completed
      ensures r == Outcome.AwaitingUser ==> state == AgentState.AwaitingUser
      ensures r == Outcome.Completed ==> !verification && log != [] && log[|log| - 1].event == RunCompleted
      ensures verification == old(verification)
      ensures old(Caught()) ==> r != Error && Caught()
      ensures r != Error ==> old(log) <= log
      ensures old(Caught()) ==>
        && (r == Outcome.Completed <==> !verification)
        && (r == Outcome.AwaitingUser <==> verification && old(notified))
        && (r == Proceed <==> verification && !old(notified))
      ensures r == Proceed ==> notified
    {
      hide Valid, Quiet;
      if verification {
        if notified {
          r := AskTheUser();
          return;
        }
        var ok := Note("ObservationAdded");
        notified := true;
        return if ok then Proceed else Error;
      }
      r := CompleteRun();
    }

    /**
     What a validated decision leads to, begun at log length `moment` with `used` calls of the budget spent:
     a final answer completes the run unless verification is due, and then asks for it once before it parks
     for the user; a question parks for the user; more calls than the budget has left fail the run; a call or
     command that needs approval parks for it; everything else lets the loop go on.
     */
    ghost predicate Answers(
      decision: Decision, r: Outcome, verification: bool, notified: bool, used: nat, moment: nat, priors: seq<string>)
    {
      match decision
      case Final(_) =>
        r == if !verification then Outcome.Completed else if notified then Outcome.AwaitingUser else Proceed
      case AskUser(_) => r == Outcome.AwaitingUser
      case ToolCalls(calls) =>
        if used + |calls| > maxToolCalls then r == Outcome.Failed
        else if Asks(moment, calls) then r.AwaitingApproval?
        else r == Proceed
      case CommandProposal(command, _) =>
        if used + 1 > maxToolCalls then r == Outcome.Failed
        else if Similar(overlap, command, priors) || refuses(moment, command) then r == Proceed
        else r.AwaitingApproval?
      case _ => true
    }

    /** A completed run is one that nothing calls to verify, and its log ends with the completion. */
    ghost predicate Closes(r: Outcome)
      reads `verification, `log
    {
      r == Outcome.Completed ==> !verification && log != [] && log[|log| - 1].event == RunCompleted
    }

    /** The outcome tells the state the run is left in; only a batch that policy blocks leaves it in Acting. */
    ghost predicate Fits(r: Outcome)
      reads `state
    {
      match r
      case Proceed => false
      case Completed => state == AgentState.Completed
      case Failed => state == AgentState.Failed
      case Cancelled => state == AgentState.Cancelled
      case AwaitingUser => state == AgentState.AwaitingUser
      case AwaitingApproval(_) => state == AgentState.AwaitingApproval
      case Error => state == Acting
    }

    /** A reply that validation refuses. */
    predicate Malformed(decision: Decision) {
      decision.Invalid? || (decision.ToolCalls? && decision.calls == [])
    }

    lemma AnswersFinal(
      decision: Decision, r: Outcome, verification: bool, notified: bool, used: nat, moment: nat, priors: seq<string>)
      requires decision.Final? || decision.AskUser?
      ensures Answers(decision, r, verification, notified, used, moment, priors) <==>
        r == if decision.AskUser? then Outcome.AwaitingUser
             else if !verification then Outcome.Completed
             else if notified then Outcome.AwaitingUser else Proceed
    {
    }

    /** A batch of calls, within what the budget has left. */
    method TakeCalls(decision: Decision) returns (r: Outcome)
      requires Ready() && state == Reasoning && BudgetOk() && decision.ToolCalls? && decision.calls != []
      modifies `log, `row, `next, `pc, `unsaved, `states, `labels, `supply, `approvals, `pending, `state,
        `toolCallsUsed, `notified
      ensures Ready() && (old(Quiet()) ==> Quiet()) && BudgetOk()
      ensures r == Proceed ==> state == if Stranding(decision, old(|log|)) then Acting else Observing
      ensures r != Outcome.Completed && (r.AwaitingApproval? <==> state == AgentState.AwaitingApproval)
      ensures old(Caught()) ==> r != Error && Caught() && (r != Proceed ==> Fits(r))
      ensures old(Caught()) ==>
        Answers(decision, r, verification, old(notified), old(toolCallsUsed), old(|log|), priors)
      ensures old(toolCallsUsed) <= toolCallsUsed
      ensures r != Error ==> Kept(old(Holdings()), Holdings()) && old(log) <= log
    {
      hide Valid, Quiet, Waiting, AllBlocked, Asks, Kept, AutoCount;
      if toolCallsUsed + |decision.calls| > maxToolCalls {
        SameKeeps(Holdings(), Holdings());
        r := Finish(AgentState.Failed, "RunFailed");
      } else {
        r := ExecuteAuthorizedCalls(decision.calls);
      }
    }

    /** A command, if the budget has a call left for it. */
    method TakeProposal(decision: Decision) returns (r: Outcome)
      requires Ready() && state == Reasoning && BudgetOk() && decision.CommandProposal?
      modifies `log, `row, `next, `pc, `unsaved, `states, `labels, `supply, `approvals, `pending, `state, `priors,
        `notified
      ensures Ready() && (old(Quiet()) ==> Quiet()) && BudgetOk()
      ensures r == Proceed ==> state == Reasoning
      ensures r != Outcome.Completed && (r.AwaitingApproval? <==> state == AgentState.AwaitingApproval)
      ensures old(Caught()) ==> r != Error && Caught() && (r != Proceed ==> Fits(r)) && old(log) <= log
      ensures old(Caught()) ==>
        Answers(decision, r, verification, old(notified), toolCallsUsed, old(|log|), old(priors))
      ensures r != Error ==> Kept(old(Holdings()), Holdings())
    {
      hide Valid, Quiet, Similar, Kept;
      if toolCallsUsed + 1 > maxToolCalls {
        SameKeeps(Holdings(), Holdings());
        r := Finish(AgentState.Failed, "RunFailed");
      } else {
        r := ProposeCommand(decision.command, decision.mutability);
      }
    }

    /** What the loop does with one validated decision. */
    method TakeDecision(decision: Decision) returns (r: Outcome)
      requires Ready() && state == Reasoning && BudgetOk()
      requires !decision.Unusable? && !Malformed(decision)
      modifies `log, `row, `next, `pc, `unsaved, `states, `labels, `supply, `approvals, `pending, `state, `priors,
        `toolCallsUsed, `notified
      ensures Ready() && (old(Quiet()) ==> Quiet()) && BudgetOk()
      ensures r == Proceed ==> state in {Reasoning, Acting, Observing}
      ensures r == Proceed ==> (state == Acting <==> Stranding(decision, old(|log|)))
      ensures Closes(r)
      ensures r.AwaitingApproval? <==> state == AgentState.AwaitingApproval
      ensures old(Caught()) ==> r != Error && Caught() && (r != Proceed ==> Fits(r)) && old(log) <= log
      ensures old(Caught()) ==>
        Answers(decision, r, verification, old(notified), old(toolCallsUsed), old(|log|), old(priors))
      ensures old(toolCallsUsed) <= toolCallsUsed
      ensures r != Error ==> Kept(old(Holdings()), Holdings())
    {
      hide Valid, Quiet, AllBlocked, Answers, Kept;
      if decision.ToolCalls? {
        r := TakeCalls(decision);
      } else if decision.CommandProposal? {
        r := TakeProposal(decision);
      } else {
        SameKeeps(Holdings(), Holdings());
        if decision.Final? {
          r := TakeFinal();
        } else {
          r := AskTheUser();
        }
        AnswersFinal(decision, r, verification, old(notified), old(toolCallsUsed), old(|log|), old(priors));
      }
    }

    predicate RoundOver(cancelled: bool, late: bool)
      reads `roundsUsed
    {
      cancelled || late || roundsUsed >= maxRounds
    }

    /** The state lets the loop reason, at once or after one move. */
    predicate CanReason()
      reads `state
    {
      state == Reasoning || state.CanTransitionTo(Reasoning)
    }

    /**
     The checks at the top of a round and the move to reasoning. When no write is refused, a live run gets
     an error here exactly when the round is not over before the move and its state forbids the move.
     */
    method BeginRound(cancelled: bool, late: bool) returns (r: Outcome)
      requires Ready() && state != AgentState.AwaitingApproval && BudgetOk()
      modifies `log, `row, `next, `pc, `unsaved, `states, `labels, `state, `roundsUsed
      ensures Ready() && (old(Quiet()) ==> Quiet()) && BudgetOk() && state != AgentState.AwaitingApproval
      ensures r == Proceed || r == Error || r == Outcome.Cancelled || r == Outcome.Failed
      ensures r == Proceed ==> state == Reasoning && old(roundsUsed) < maxRounds && roundsUsed == old(roundsUsed) + 1
      ensures r != Proceed ==> roundsUsed == old(roundsUsed)
      ensures r == Outcome.Cancelled || r == Outcome.Failed ==> state.IsTerminal()
      ensures old(RoundOver(cancelled, late)) ==> r != Proceed
      ensures old(!RoundOver(cancelled, late) && !CanReason()) ==>
        r == Error && state == old(state) && log == old(log)
      ensures old(Caught()) ==> Caught()
      ensures old(log) <= log
      ensures r == Proceed ==> log == old(log) + [Entry(old(next), Other("ReasoningStarted"))]
      ensures old(Caught() && !state.IsTerminal()) ==>
        (r == Error <==> old(!RoundOver(cancelled, late) && !CanReason()))
      ensures old(Caught() && !state.IsTerminal()) && r == Error ==> state == old(state)
      ensures old(Caught() && !state.IsTerminal()) ==>
        && (r == Outcome.Cancelled <==> cancelled)
        && (r == Outcome.Failed <==> !cancelled && (late || old(roundsUsed) >= maxRounds))
      ensures r == Outcome.Cancelled ==> state == AgentState.Cancelled
      ensures r == Outcome.Failed ==> state == AgentState.Failed
    {
      hide Valid, Quiet;
      if cancelled {
        r := Finish(AgentState.Cancelled, "RunCancelled");
        return;
      }
      if late || roundsUsed >= maxRounds {
        r := Finish(AgentState.Failed, "RunFailed");
        return;
      }
      if state != Reasoning {
        var moved := Move(Reasoning);
        if !moved {
          return Error;
        }
      }
      var ok := Note("ReasoningStarted");
      if !ok {
        return Error;
      }
      roundsUsed := roundsUsed + 1;
      r := Proceed;
    }

    /** Round `n` let the loop go on: neither stopped nor late, and its reply asks for no end. */
    ghost predicate WentOn(n: nat, verification: bool) {
      var reply := around.reply(n);
      && !around.cancelled(n) && !around.late(n)
      && (if reply.Unusable? then reply.recoverable else !around.stopped(n))
      && !reply.AskUser?
      && (reply.Final? ==> verification)
    }

    ghost predicate AllWentOn(first: nat, last: nat, verification: bool) {
      forall n :: first <= n < last ==> WentOn(n, verification)
    }

    /** So far every round from number `first` on went on, and the budget has counted each. */
    ghost predicate Counted(first: nat, rounds: nat, begun: nat, roundsUsed: nat, verification: bool, sure: bool) {
      && first <= begun && roundsUsed == rounds + begun - first
      && (roundsUsed <= maxRounds || roundsUsed == rounds)
      && (sure ==> AllWentOn(first, begun, verification))
    }

    lemma CountedFirst(first: nat, rounds: nat, verification: bool, sure: bool)
      ensures Counted(first, rounds, first, rounds, verification, sure)
    {
    }

    lemma CountedNext(first: nat, rounds: nat, begun: nat, roundsUsed: nat, verification: bool, sure: bool)
      requires Counted(first, rounds, begun, roundsUsed, verification, sure) && roundsUsed < maxRounds
      requires sure ==> WentOn(begun, verification)
      ensures Counted(first, rounds, begun + 1, roundsUsed + 1, verification, sure)
    {
    }

    /** Why the loop ended in round `n` with this outcome. */
    ghost predicate EndedBy(ending: Ending, n: nat, r: Outcome, verification: bool, roundsUsed: nat) {
      match ending
      case Over(true) => r == Outcome.Cancelled && (around.cancelled(n) || around.stopped(n))
      case Over(false) =>
        r == Outcome.Failed && !around.cancelled(n) && (around.late(n) || roundsUsed >= maxRounds)
      case Stuck(batch, moment) => r == Error && Stranding(batch, moment)
      case Replied(decision) =>
        && decision == around.reply(n)
        && (match decision
            case Final(_) => r == if verification then Outcome.AwaitingUser else Outcome.Completed
            case AskUser(_) => r == Outcome.AwaitingUser
            case ToolCalls(_) => r == Outcome.Failed || r.AwaitingApproval?
            case CommandProposal(_, _) => r == Outcome.Failed || r.AwaitingApproval?
            case Unusable(_) => r == Outcome.Failed
            case Invalid => false)
    }

    /**
     The loop began rounds from number `first` on, with `rounds` of the budget spent: every round but the
     last went on, the last ended it, and each counted against the budget, except a last one that it never got into.
     */
    ghost predicate Looped(first: nat, rounds: nat, ending: Ending, r: Outcome)
      reads `verification, `roundsUsed, `begun, `state
    {
      && begun > first
      && EndedBy(ending, begun - 1, r, verification, roundsUsed)
      && AllWentOn(first, begun - 1, verification)
      && rounds + begun - first - 1 <= roundsUsed <= rounds + begun - first
      && Fits(r)
    }

    /** Of the states the loop goes on in, only Acting does not let it reason. */
    lemma ReasoningStates()
      ensures CanReason() ==> !state.IsTerminal() && state != Acting
      ensures state in {Reasoning, Observing} ==> CanReason()
      ensures state in {Reasoning, Acting, Observing} ==> !state.IsTerminal()
    {
    }

    /** The last round ended the loop: as the round says, or because the state before it was one to be stuck in. */
    lemma LoopEnds(
      first: nat, rounds: nat, spent: nat, sure: bool, ending: Ending, r: Outcome, batch: Decision, moment: nat)
      requires begun > 0 && Counted(first, rounds, begun - 1, spent, verification, sure)
      requires spent <= roundsUsed <= spent + 1
      requires sure ==>
        if r == Error then state == Acting && Stranding(batch, moment)
        else EndedBy(ending, begun - 1, r, verification, roundsUsed) && Fits(r)
      ensures sure ==> Looped(first, rounds, if r == Error then Stuck(batch, moment) else ending, r)
    {
    }

    /**
     Reasons until the run ends or must wait. Whatever the reasoner, the policy and the host do, it makes
     no more rounds than the budget has left and never exceeds the tool budget. When no write is refused,
     `ending` says why it ended, with what outcome, and in what state; it ends with an error exactly when it
     stops in Acting, after a batch of which policy blocks every call.
     */
    method DriveLoop() returns (r: Outcome, ghost ending: Ending)
      requires Ready() && state != AgentState.AwaitingApproval && BudgetOk()
      modifies `log, `row, `next, `pc, `unsaved, `states, `labels, `supply, `approvals, `pending, `state, `priors,
        `toolCallsUsed, `notified, `roundsUsed, `recoveries, `analysing, `begun
      ensures Ready() && (old(Quiet()) ==> Quiet()) && BudgetOk()
      ensures old(roundsUsed) <= roundsUsed
      ensures roundsUsed <= if old(roundsUsed) <= maxRounds then maxRounds else old(roundsUsed)
      ensures Closes(r)
      ensures r.AwaitingApproval? <==> state == AgentState.AwaitingApproval
      ensures r != Proceed && old(toolCallsUsed) <= toolCallsUsed
      ensures old(Caught()) ==> Caught() && Kept(old(Holdings()), Holdings()) && old(log) <= log
      ensures old(Caught() && CanReason()) ==> Looped(old(begun), old(roundsUsed), ending, r)
    {
      hide Valid, Quiet, Stranding, RoundOver, CanReason, AgentState.IsTerminal, Kept, WentOn, Counted, EndedBy,
        Fits, Looped, Closes;
      ghost var sure, held, first, rounds := Caught() && CanReason(), Holdings(), begun, roundsUsed;
      SameKeeps(held, held);
      CountedFirst(first, rounds, verification, sure);
      ghost var last, moment, replied := Invalid, 0, false;
      while true
        invariant Ready() && (old(Quiet()) ==> Quiet()) && BudgetOk() && state != AgentState.AwaitingApproval
        invariant old(toolCallsUsed) <= toolCallsUsed && (old(Caught()) ==> Caught() && old(log) <= log)
        invariant Kept(held, Holdings()) && Counted(first, rounds, begun, roundsUsed, verification, sure)
        invariant roundsUsed == rounds || rounds < roundsUsed <= maxRounds
        invariant if replied then state in {Reasoning, Acting, Observing} else state == old(state)
        invariant replied ==> (state == Acting <==> Stranding(last, moment))
        decreases maxRounds - roundsUsed
      {
        ghost var here, spent, batch, at := Holdings(), roundsUsed, last, moment;
        begun := begun + 1;
        ReasoningStates();
        r, ending, last, moment := TakeRound(begun - 1);
        replied := true;
        KeptOn(held, here, Holdings());
        if r != Proceed {
          LoopEnds(first, rounds, spent, sure, ending, r, batch, at);
          ending := if r == Error then Stuck(batch, at) else ending;
          return;
        }
        CountedNext(first, rounds, begun - 1, spent, verification, sure);
      }
    }

    lemma TopEnds(n: nat, r: Outcome)
      ensures r == Outcome.Cancelled && around.cancelled(n) ==> EndedBy(Over(true), n, r, verification, roundsUsed)
      ensures r == Outcome.Failed && !around.cancelled(n) && (around.late(n) || roundsUsed >= maxRounds) ==>
        EndedBy(Over(false), n, r, verification, roundsUsed)
      ensures r.Cancelled? && state == AgentState.Cancelled ==> Fits(r)
      ensures r.Failed? && state == AgentState.Failed ==> Fits(r)
    {
    }

    /** What a reply led to says whether and why the loop ends. */
    lemma ReplyEnds(n: nat, r: Outcome, notified: bool, used: nat, moment: nat, priors: seq<string>, failures: nat)
      requires !around.cancelled(n) && !around.late(n) && r != Error
      requires var decision := around.reply(n);
        if decision.Unusable? then
          r == if decision.recoverable && failures < MAX_REASONER_RECOVERIES then Proceed else Outcome.Failed
        else if around.stopped(n) then r == Outcome.Cancelled
        else if Malformed(decision) then r == Proceed
        else Answers(decision, r, verification, notified, used, moment, priors)
      ensures r == Proceed ==> WentOn(n, verification)
      ensures r != Proceed ==>
        EndedBy(if !around.reply(n).Unusable? && around.stopped(n) then Over(true) else Replied(around.reply(n)), n, r,
          verification, roundsUsed)
    {
    }

    /** One round: the checks at its top, then a reply; `batch` and `moment` are that reply and when it was acted on. */
    method TakeRound(n: nat) returns (r: Outcome, ghost ending: Ending, ghost batch: Decision, ghost moment: nat)
      requires Ready() && state != AgentState.AwaitingApproval && BudgetOk()
      modifies `log, `row, `next, `pc, `unsaved, `states, `labels, `supply, `approvals, `pending, `state, `priors,
        `toolCallsUsed, `notified, `roundsUsed, `recoveries, `analysing
      ensures Ready() && (old(Quiet()) ==> Quiet()) && BudgetOk()
      ensures old(toolCallsUsed) <= toolCallsUsed
      ensures roundsUsed == old(roundsUsed) || (old(roundsUsed) < maxRounds && roundsUsed == old(roundsUsed) + 1)
      ensures r == Proceed ==> roundsUsed == old(roundsUsed) + 1
      ensures Closes(r)
      ensures r.AwaitingApproval? <==> state == AgentState.AwaitingApproval
      ensures r == Proceed ==> state in {Reasoning, Acting, Observing}
      ensures r == Proceed ==> (state == Acting <==> Stranding(batch, moment))
      ensures old(Caught()) ==> Caught() && old(log) <= log
      ensures old(Caught()) || r == Proceed ==> Kept(old(Holdings()), Holdings())
      ensures old(Caught() && !state.IsTerminal()) && r == Proceed ==> WentOn(n, verification)
      ensures old(Caught() && !state.IsTerminal()) && r == Error ==> old(!CanReason()) && state == old(state)
      ensures old(Caught() && !state.IsTerminal()) && r != Error && r != Proceed ==>
        EndedBy(ending, n, r, verification, roundsUsed) && Fits(r)
    {
      hide Valid, Quiet, Stranding, RoundOver, CanReason, AgentState.IsTerminal, Kept, EndedBy, WentOn, Answers, Fits;
      SameKeeps(Holdings(), Holdings());
      ReasoningStates();
      batch, moment := around.reply(n), 0;
      r := BeginRound(around.cancelled(n), around.late(n));
      ending := Over(r.Cancelled?);
      if r != Proceed {
        TopEnds(n, r);
        return;
      }
      ghost var alerted, used, known, failures := notified, toolCallsUsed, priors, recoveries;
      var decision := around.reply(n);
      r, moment := TakeReply(decision, around.stopped(n));
      ending := if !decision.Unusable? && around.stopped(n) then Over(true) else Replied(decision);
      if old(Caught()) {
        ReplyEnds(n, r, alerted, used, moment, known, failures);
      }
    }

    /** One reply of the reasoner, from its reception to its effect. */
    method TakeReply(decision: Decision, stopped: bool) returns (r: Outcome, ghost moment: nat)
      requires Ready() && state == Reasoning && BudgetOk()
      modifies `log, `row, `next, `pc, `unsaved, `states, `labels, `supply, `approvals, `pending, `state, `priors,
        `toolCallsUsed, `notified, `recoveries, `analysing
      ensures Ready() && (old(Quiet()) ==> Quiet()) && BudgetOk()
      ensures r == Proceed ==> state in {Reasoning, Acting, Observing}
      ensures r == Proceed ==> (state == Acting <==> Stranding(decision, moment))
      ensures old(Caught()) ==> r != Error && Caught()
      ensures Closes(r)
      ensures r.AwaitingApproval? <==> state == AgentState.AwaitingApproval
      ensures r != Proceed && old(Caught()) ==> Fits(r)
      ensures old(Caught()) && decision.Unusable? ==>
        r == if decision.recoverable && old(recoveries) < MAX_REASONER_RECOVERIES then Proceed else Outcome.Failed
      ensures old(Caught()) && !decision.Unusable? && stopped ==> r == Outcome.Cancelled
      ensures old(Caught()) && !decision.Unusable? && !stopped && Malformed(decision) ==> r == Proceed
      ensures old(Caught()) && !decision.Unusable? && !stopped && !Malformed(decision) ==>
        old(|log|) <= moment
        && Answers(decision, r, verification, old(notified), old(toolCallsUsed), moment, old(priors))
      ensures old(toolCallsUsed) <= toolCallsUsed
      ensures old(Caught()) ==> old(log) <= log
      ensures r != Error ==> Kept(old(Holdings()), Holdings())
    {
      hide Valid, Quiet, Stranding, Answers, Kept, Fits;
      moment := |log|;
      if decision.Unusable? || stopped || Malformed(decision) {
        SameKeeps(Holdings(), Holdings());
        r := SetAside(decision, stopped);
        NotStranding(decision, moment);
        return;
      }
      recoveries := 0;
      r, moment := ActOnReply(decision);
    }

    lemma NotStranding(decision: Decision, moment: nat)
      ensures !decision.ToolCalls? || decision.calls == [] ==> !Stranding(decision, moment)
    {
    }

    /** A reply that is not acted on: unusable, too late because the user cancelled, or malformed. */
    method SetAside(decision: Decision, stopped: bool) returns (r: Outcome)
      requires Ready() && state == Reasoning && (decision.Unusable? || stopped || Malformed(decision))
      modifies `log, `row, `next, `pc, `unsaved, `states, `labels, `state, `notified, `recoveries
      ensures Ready() && (old(Quiet()) ==> Quiet()) && old(log) <= log
      ensures r != Outcome.Completed && !r.AwaitingApproval? && state != AgentState.AwaitingApproval
      ensures r == Proceed ==> state == Reasoning && (decision.Unusable? || Malformed(decision))
      ensures old(Caught()) ==> r != Error && Caught() && (r != Proceed ==> Fits(r))
      ensures old(Caught()) && decision.Unusable? ==>
        r == if decision.recoverable && old(recoveries) < MAX_REASONER_RECOVERIES then Proceed else Outcome.Failed
      ensures old(Caught()) && !decision.Unusable? ==> r == if stopped then Outcome.Cancelled else Proceed
      ensures !decision.Unusable? ==> recoveries == 0
    {
      hide Valid, Quiet;
      if decision.Unusable? {
        r := Recover(decision.recoverable);
        return;
      }
      recoveries := 0;
      if stopped {
        r := Finish(AgentState.Cancelled, "RunCancelled");
        return;
      }
      notified := false;
      var noted := Note("ObservationAdded");
      r := if noted then Proceed else Error;
    }

    /** A validated reply: any analysis that is due is logged first. */
    method ActOnReply(decision: Decision) returns (r: Outcome, ghost moment: nat)
      requires Ready() && state == Reasoning && BudgetOk()
      requires !decision.Unusable? && !Malformed(decision)
      modifies `log, `row, `next, `pc, `unsaved, `states, `labels, `supply, `approvals, `pending, `state, `priors,
        `toolCallsUsed, `notified, `analysing
      ensures Ready() && (old(Quiet()) ==> Quiet()) && BudgetOk()
      ensures r == Proceed ==> state in {Reasoning, Acting, Observing}
      ensures r == Proceed ==> (state == Acting <==> Stranding(decision, moment))
      ensures Closes(r)
      ensures r.AwaitingApproval? <==> state == AgentState.AwaitingApproval
      ensures old(Caught()) ==> r != Error && Caught() && (r != Proceed ==> Fits(r)) && old(log) <= log
      ensures old(Caught()) ==>
        old(|log|) <= moment
        && Answers(decision, r, verification, old(notified), old(toolCallsUsed), moment, old(priors))
      ensures old(toolCallsUsed) <= toolCallsUsed
      ensures r != Error ==> Kept(old(Holdings()), Holdings())
    {
      hide Valid, Quiet, Answers, Kept, Fits, Stranding;
      var ok := EmitAnalysis();
      moment := |log|;
      if !ok {
        return Error, moment;
      }
      r := TakeDecision(decision);
    }

    // ---- What the service calls ----------------------------------------------------------------------

    /** Starts a new run, or goes on with one that can reason. */
    method RunToInterrupt() returns (r: Outcome)
      requires Ready() && state != AgentState.AwaitingApproval && BudgetOk()
      modifies this
      ensures Ready() && (old(Quiet()) ==> Quiet()) && BudgetOk() && executed == old(executed)
      ensures old(Caught()) ==> Caught() && Kept(old(Holdings()), Holdings()) && old(log) <= log
      ensures old(Caught() && (state == Created || CanReason())) ==>
        exists ending :: Looped(old(begun), old(roundsUsed), ending, r)
    {
      hide Valid, Quiet, Kept, Looped;
      if state == Created {
        var moved := Move(Running);
        var ok := Note("RunStarted");
        if !ok {
          return Error;
        }
      }
      ghost var ending: Ending;
      r, ending := DriveLoop();
    }

    /** The run waits for a decision, and approval `a` is known with its action still stored. */
    predicate Presented(a: Id)
      reads `state, `approvals, `pending
    {
      state == AgentState.AwaitingApproval && a in approvals && approvals[a].actionId in pending
    }

    /** What approval `a` was asked for. */
    function ActionOf(a: Id): (x: Action)
      requires Presented(a)
      reads `state, `approvals, `pending
    {
      pending[approvals[a].actionId]
    }

    /** The approval is pending and binds exactly the stored action, and `matches` says nothing else has changed. */
    ghost predicate StillBinds(a: Id, matches: bool)
      requires Presented(a)
      reads `state, `approvals, `pending
    {
      && matches
      && approvals[a].state == Pending && approvals[a].actionId == ActionOf(a).id
      && approvals[a].isCall == ActionOf(a).isCall && approvals[a].text == ActionOf(a).text
    }

    /**
     Acts on the user's approval. Without a waiting approval nothing happens. If the approval is pending and
     still binds its action under the same targets, session and policy (`matches`) and no write is refused,
     it is granted, the action leaves the store and is executed, and the log gains the grant, the start and
     the outcome; otherwise it is invalidated, the action leaves the store unexecuted, and the log says so.
     Either way the loop then goes on.
     */
    method Approve(a: Id, matches: bool) returns (r: Outcome)
      requires Ready() && BudgetOk()
      modifies this
      ensures Ready() && BudgetOk()
      ensures old(Quiet()) && (a in old(approvals) ==> old(approvals)[a].state == Pending) ==> Quiet()
      ensures !old(Presented(a)) ==> r == Error && unchanged(this)
      ensures executed == old(executed)
        || (old(Presented(a)) && old(StillBinds(a, matches)) && executed == old(executed) + [old(ActionOf(a))])
      ensures old(Caught() && Presented(a)) ==>
        Caught() && exists ending :: Looped(old(begun), old(roundsUsed), ending, r)
      ensures old(Caught() && Presented(a)) && old(StillBinds(a, matches)) ==>
        && executed == old(executed) + [old(ActionOf(a))]
        && Carried(old(Holdings()), old(log), Holdings(), log, a, old(ActionOf(a)))
      ensures old(Caught() && Presented(a)) && !old(StillBinds(a, matches)) ==>
        && executed == old(executed)
        && Refused(old(Holdings()), old(log), Holdings(), log, a, old(ActionOf(a)), Invalidated)
    {
      hide Valid, Quiet, Looped, Carried, Refused, Kept;
      if !Presented(a) {
        return Error;
      }
      var x := ActionOf(a);
      KnownIds();
      ghost var ending: Ending;
      if AgentModel.Valid(approvals[a], x, matches) {
        r, ending := GrantAndResume(a, x, matches);
      } else {
        r, ending := RefuseAndResume(a, x, Invalidated, AgentModel.Approve(a, matches));
      }
    }

    /** Grants, executes, and reasons on. */
    method GrantAndResume(a: Id, x: Action, matches: bool) returns (r: Outcome, ghost ending: Ending)
      requires Ready() && BudgetOk() && Presented(a) && ActionOf(a) == x && x.id < supply
      requires AgentModel.Valid(approvals[a], x, matches)
      modifies this
      ensures Ready() && BudgetOk() && (old(Quiet()) ==> Quiet())
      ensures executed == old(executed) || executed == old(executed) + [x]
      ensures old(Caught()) ==>
        && Caught() && executed == old(executed) + [x]
        && Carried(old(Holdings()), old(log), Holdings(), log, a, x)
        && Looped(old(begun), old(roundsUsed), ending, r)
    {
      hide Valid, Quiet, Looped, Carried, Kept, CanReason, NeedsVerification;
      ghost var success: bool;
      r, success := ActOnGrant(a, x, matches);
      ending := Over(false);
      if r == Proceed {
        ghost var told, held := log, Holdings();
        ReasoningStates();
        r, ending := ResumeLoop();
        SettledLater(old(Holdings()), old(log), held, told, Holdings(), log, a, x, Granted);
      }
    }

    /** Rejects or invalidates, drops the action, and tells. */
    method Refuse(a: Id, x: Action, to: RequestState, ghost step: Label) returns (ok: bool)
      requires Ready() && BudgetOk() && Presented(a) && ActionOf(a) == x
      requires (step == AgentModel.Reject(a) && to == Rejected)
        || (exists matches :: step == AgentModel.Approve(a, matches) && to == Invalidated
              && !AgentModel.Valid(approvals[a], x, matches))
      modifies `log, `row, `next, `pc, `unsaved, `states, `labels, `state, `notified, `approvals, `pending
      ensures Ready() && BudgetOk() && (old(Quiet()) && old(approvals)[a].state == Pending ==> Quiet())
      ensures ok ==> state == Reasoning && Refused(old(Holdings()), old(log), Holdings(), log, a, x, to)
      ensures old(Caught()) ==> ok && Caught()
    {
      hide Valid, Quiet, Refused;
      Deny(a, x, to, step);
      ok := SettleDenial(x, a, to);
      if ok {
        RefusedNow(old(Holdings()), old(log), Holdings(), log, a, x, to, old(next));
      }
    }

    /** Rejects or invalidates, drops the action, tells, and reasons on. */
    method RefuseAndResume(a: Id, x: Action, to: RequestState, ghost step: Label)
      returns (r: Outcome, ghost ending: Ending)
      requires Ready() && BudgetOk() && Presented(a) && ActionOf(a) == x && x.id < supply
      requires (step == AgentModel.Reject(a) && to == Rejected)
        || (exists matches :: step == AgentModel.Approve(a, matches) && to == Invalidated
              && !AgentModel.Valid(approvals[a], x, matches))
      modifies `log, `row, `next, `pc, `unsaved, `states, `labels, `supply, `approvals, `pending, `state, `priors,
        `toolCallsUsed, `notified, `roundsUsed, `recoveries, `analysing, `begun
      ensures Ready() && BudgetOk() && (old(Quiet()) && old(approvals)[a].state == Pending ==> Quiet())
      ensures old(Caught()) ==>
        && Caught()
        && Refused(old(Holdings()), old(log), Holdings(), log, a, x, to)
        && Looped(old(begun), old(roundsUsed), ending, r)
    {
      hide Valid, Quiet, Looped, Refused, Kept, CanReason;
      ending := Over(false);
      var ok := Refuse(a, x, to, step);
      if !ok {
        return Error, ending;
      }
      ghost var told, held := log, Holdings();
      ReasoningStates();
      r, ending := ResumeLoop();
      SettledLater(old(Holdings()), old(log), held, told, Holdings(), log, a, x, to);
    }

    /** A valid approval: saved as granted, logged, and its action executed. */
    method ActOnGrant(a: Id, x: Action, matches: bool) returns (r: Outcome, ghost success: bool)
      requires Ready() && BudgetOk() && state == AgentState.AwaitingApproval && a in approvals
      requires approvals[a].actionId in pending && pending[approvals[a].actionId] == x
      requires AgentModel.Valid(approvals[a], x, matches)
      modifies `log, `row, `next, `pc, `unsaved, `states, `labels, `verification, `priors, `state, `executed,
        `toolCallsUsed, `notified, `analysing, `approvals, `pending
      ensures Ready() && (old(Quiet()) ==> Quiet()) && BudgetOk() && (r == Proceed || r == Error)
      ensures executed == old(executed) || executed == old(executed) + [x]
      ensures r == Proceed ==> executed == old(executed) + [x] && state == Observing
      ensures r == Proceed ==> toolCallsUsed == old(toolCallsUsed) + 1 && !notified
      ensures r == Proceed ==> verification == NeedsVerification(x, success, old(verification))
      ensures r == Proceed ==> Carried(old(Holdings()), old(log), Holdings(), log, a, x)
      ensures old(Caught()) ==> r == Proceed && Caught()
    {
      hide Valid, Quiet, NeedsVerification, Carried;
      var settled := GrantAndTell(a, x, matches);
      r, success := Error, false;
      if settled {
        r, success := PerformGranted(x, a);
        if r == Proceed {
          CarriedNow(old(Holdings()), old(log), Holdings(), log, a, x, old(next), success);
        }
      }
    }

    method PerformGranted(x: Action, a: Id) returns (r: Outcome, ghost success: bool)
      requires Valid() && !unsaved && pc == GrantDone(x, a) && state == AgentState.AwaitingApproval && BudgetOk()
      modifies `log, `row, `next, `pc, `unsaved, `states, `labels, `verification, `priors, `state, `executed,
        `toolCallsUsed, `notified, `analysing
      ensures Ready() && (old(Quiet()) ==> Quiet()) && BudgetOk() && (r == Proceed || r == Error)
      ensures executed == old(executed) || executed == old(executed) + [x]
      ensures r == Proceed ==> executed == old(executed) + [x] && state == Observing
      ensures r == Proceed ==> toolCallsUsed == old(toolCallsUsed) + 1 && !notified
      ensures r == Proceed ==> verification == NeedsVerification(x, success, old(verification))
      ensures r == Proceed ==>
        log == old(log) + [Entry(old(next), if x.isCall then ToolStarted(x.id) else CommandStarted(x.id))]
          + [Entry(old(next) + 1, AgentModel.Outcome(x, success))]
      ensures state == Acting || state == Observing
      ensures old(Caught()) ==> r == Proceed && Caught()
    {
      hide Valid, Quiet, NeedsVerification;
      var ok := StartGranted(x, a);
      success := false;
      if ok {
        ok, success := ExecuteStarted(x, a);
      }
      r := if ok then Proceed else Error;
    }

    method ResumeLoop() returns (r: Outcome, ghost ending: Ending)
      requires Ready() && state != AgentState.AwaitingApproval && BudgetOk()
      modifies `log, `row, `next, `pc, `unsaved, `states, `labels, `supply, `approvals, `pending, `state, `priors,
        `toolCallsUsed, `notified, `roundsUsed, `recoveries, `analysing, `begun
      ensures Ready() && (old(Quiet()) ==> Quiet()) && BudgetOk()
      ensures old(Caught()) ==> Caught() && Kept(old(Holdings()), Holdings()) && old(log) <= log
      ensures old(Caught()) ==> Logged(old(log), log, Other("RunResumed"))
      ensures old(Caught() && CanReason()) ==> Looped(old(begun), old(roundsUsed), ending, r)
    {
      hide Valid, Quiet, Kept, Looped;
      var ok := Note("RunResumed");
      ending := Over(false);
      if !ok {
        return Error, ending;
      }
      r, ending := DriveLoop();
    }

    /**
     Acts on the user's rejection: whatever the approval was, it is rejected, its action leaves the store
     unexecuted, the log says so, and the loop goes on.
     */
    method Reject(a: Id) returns (r: Outcome)
      requires Ready() && BudgetOk()
      modifies this
      ensures Ready() && BudgetOk() && executed == old(executed)
      ensures old(Quiet()) && (a in old(approvals) ==> old(approvals)[a].state == Pending) ==> Quiet()
      ensures !old(Presented(a)) ==> r == Error && unchanged(this)
      ensures old(Caught() && Presented(a)) ==>
        && Caught()
        && Refused(old(Holdings()), old(log), Holdings(), log, a, old(ActionOf(a)), Rejected)
        && exists ending :: Looped(old(begun), old(roundsUsed), ending, r)
    {
      hide Valid, Quiet, Looped, Refused, Kept;
      if !Presented(a) {
        return Error;
      }
      KnownIds();
      ghost var ending: Ending;
      r, ending := RefuseAndResume(a, ActionOf(a), Rejected, AgentModel.Reject(a));
    }

    method SweepOne(a: Id) returns (ok: bool)
      requires Ready() && state.IsTerminal() && a in approvals && approvals[a].state == Pending
      modifies `log, `row, `next, `pc, `unsaved, `states, `labels, `approvals
      ensures Ready() && (old(Quiet()) ==> Quiet())
      ensures approvals == old(approvals)[a := old(approvals)[a].(state := Invalidated)]
      ensures log == if ok then old(log) + [Entry(old(next), ApprovalInvalidated(a))] else old(log)
      ensures old(Caught()) ==> ok && Caught()
    {
      hide Run, QuietRun, Emit, Step, Decided;
      SweepIs(overlap, Sys(), Mem(), a);
      SaveDecision(a, Invalidated, Sweep(a), Swept(a));
      SweptIs(overlap, Sys(), Mem(), a);
      ok := EmitEvent(ApprovalInvalidated(a), Advance, Idle);
    }

    /** Invalidates every approval still pending, in whatever order the store returns them. */
    method SweepApprovals() returns (ok: bool)
      requires Ready() && state.IsTerminal()
      modifies `log, `row, `next, `pc, `unsaved, `states, `labels, `approvals
      ensures Ready() && (old(Quiet()) ==> Quiet())
      ensures ok ==> NonePending(approvals)
      ensures Withdrawn(old(approvals), approvals)
      ensures old(log) <= log && (old(Caught()) ==> ok && Caught())
    {
      hide Valid, Quiet;
      var left := set a | a in approvals && approvals[a].state == Pending;
      while left != {}
        invariant Ready() && (old(Quiet()) ==> Quiet())
        invariant left == set a | a in approvals && approvals[a].state == Pending
        invariant Withdrawn(old(approvals), approvals) && old(log) <= log && (old(Caught()) ==> Caught())
        decreases |left|
      {
        var a :| a in left;
        ok := SweepOne(a);
        if !ok {
          return;
        }
        left := left - {a};
      }
      NothingLeft(approvals, left);
      ok := true;
    }

    method ReopenRun()
      requires Ready() && state.IsTerminal() && NonePending(approvals)
      modifies `row, `state, `pc, `states, `labels
      ensures Ready() && state == Reasoning && (old(Quiet()) ==> Quiet())
    {
      hide Run, QuietRun, NonePending;
      state := Reasoning;
      row := Row(state, next);
      Follow(Reopen);
    }

    /** Anything a user or a tool says may quote a command; later proposals are compared with it. */
    method Overhear()
      requires Ready()
      modifies `priors, `states, `labels
      ensures Ready() && (old(Quiet()) ==> Quiet())
    {
      hide Valid, Quiet;
      var quotes: bool := *;
      if quotes {
        var text: string := *;
        QuoteAttempt(text);
      }
    }

    /** A finished run reopened for a new message: old approvals die, budgets start afresh. */
    method BeginTurn() returns (ok: bool)
      requires Ready() && state.IsTerminal()
      modifies `log, `row, `next, `pc, `unsaved, `states, `labels, `approvals, `state, `priors, `roundsUsed,
        `toolCallsUsed, `analysing, `notified
      ensures Ready() && (old(Quiet()) ==> Quiet())
      ensures ok ==> state == Reasoning && toolCallsUsed == roundsUsed == 0
      ensures !ok ==> state != AgentState.AwaitingApproval
      ensures !ok ==> toolCallsUsed == old(toolCallsUsed) || toolCallsUsed == 0
      ensures ok ==> NonePending(approvals) && Withdrawn(old(approvals), approvals)
      ensures old(log) <= log && (old(Caught()) ==> ok && Caught())
    {
      hide Valid, Quiet, NonePending, Withdrawn;
      ok := SweepApprovals();
      if !ok {
        return;
      }
      ReopenRun();
      roundsUsed, toolCallsUsed, analysing, notified := 0, 0, false, false;
      ok := Note("UserMessageAdded");
      if ok {
        Overhear();
      }
    }

    /** `before` had its pending approvals invalidated, and approvals under new ids may have come since. */
    ghost predicate Withheld(before: map<Id, Request>)
      reads `approvals
    {
      forall a :: a in before ==>
        a in approvals
        && approvals[a] == if before[a].state == Pending then before[a].(state := Invalidated) else before[a]
    }

    lemma SweptLater(before: map<Id, Request>, swept: Stock)
      requires Withdrawn(before, swept.approvals) && NonePending(swept.approvals)
      ensures Kept(swept, Holdings()) ==> Withheld(before)
    {
    }

    /**
     A new turn in a finished conversation: pending approvals are invalidated, budgets start afresh,
     verification stays due, and the loop runs. On any other run nothing happens.
     */
    method ContinueConversation() returns (r: Outcome)
      requires Ready()
      modifies this
      ensures Ready() && (old(Quiet()) ==> Quiet()) && executed == old(executed)
      ensures !old(state).IsTerminal() ==> r == Error && unchanged(this)
      ensures r != Error || old(BudgetOk()) ==> BudgetOk()
      ensures verification == old(verification)
      ensures old(Caught() && state.IsTerminal()) ==>
        Caught() && Withheld(old(approvals)) && exists ending :: Looped(old(begun), 0, ending, r)
    {
      hide Valid, Quiet, Looped, Kept, NonePending, Withdrawn, Withheld;
      if !state.IsTerminal() {
        return Error;
      }
      var ok := BeginTurn();
      if !ok {
        return Error;
      }
      ghost var swept := Holdings();
      ghost var ending: Ending;
      r, ending := ResumeLoop();
      SweptLater(old(approvals), swept);
    }

    /** A failed run reopened: old approvals die, budgets stay. */
    method BeginRetry() returns (ok: bool)
      requires Ready() && state.IsTerminal()
      modifies `log, `row, `next, `pc, `unsaved, `states, `labels, `approvals, `state, `analysing, `notified
      ensures Ready() && (old(Quiet()) ==> Quiet())
      ensures ok ==> state == Reasoning
      ensures !ok ==> state != AgentState.AwaitingApproval
      ensures ok ==> NonePending(approvals) && Withdrawn(old(approvals), approvals)
      ensures old(Caught()) ==> ok && Caught()
    {
      hide Valid, Quiet, NonePending, Withdrawn;
      ok := SweepApprovals();
      if !ok {
        return;
      }
      ReopenRun();
      analysing, notified := false, false;
      ok := Note("ObservationAdded");
    }

    /** Reasons again on a failed run, with its budgets as they are and its pending approvals invalidated. */
    method RetryAfterFailure() returns (r: Outcome)
      requires Ready() && BudgetOk()
      modifies this
      ensures Ready() && (old(Quiet()) ==> Quiet()) && BudgetOk() && executed == old(executed)
      ensures old(state) != AgentState.Failed ==>
        r == Error && unchanged(this)
      ensures old(Caught()) && old(state) == AgentState.Failed ==>
        Caught() && Withheld(old(approvals)) && exists ending :: Looped(old(begun), old(roundsUsed), ending, r)
    {
      hide Valid, Quiet, Looped, Kept, NonePending, Withdrawn, Withheld;
      if state != AgentState.Failed {
        return Error;
      }
      var ok := BeginRetry();
      if !ok {
        return Error;
      }
      ghost var swept := Holdings();
      ghost var ending: Ending;
      r, ending := ResumeLoop();
      SweptLater(old(approvals), swept);
    }

    /** The user's answer, logged and overheard; then the run reasons again. */
    method TakeAnswer() returns (ok: bool)
      requires Ready() && state == AgentState.AwaitingUser
      modifies `log, `row, `next, `pc, `unsaved, `states, `labels, `priors, `notified, `state
      ensures Ready() && (old(Quiet()) ==> Quiet())
      ensures state == if ok then Reasoning else AgentState.AwaitingUser
      ensures ok ==> Logged(old(log), log, Other("UserMessageAdded")) && !notified
      ensures old(Caught()) ==> ok && Caught()
    {
      hide Valid, Quiet;
      ok := Note("UserMessageAdded");
      if ok {
        ok := Note("UserInputReceived");
      }
      if ok {
        notified := false;
        Overhear();
        ok := Note("RunResumed");
      }
      if ok {
        var moved := Move(Reasoning);
      }
    }

    /** The user's answer to a question: logged, and the loop goes on. On any other run nothing happens. */
    method ResumeWithUserInput() returns (r: Outcome)
      requires Ready() && BudgetOk()
      modifies this
      ensures Ready() && (old(Quiet()) ==> Quiet()) && BudgetOk() && executed == old(executed)
      ensures old(state) != AgentState.AwaitingUser ==>
        r == Error && unchanged(this)
      ensures old(Caught()) && old(state) == AgentState.AwaitingUser ==>
        && Caught() && Kept(old(Holdings()), Holdings()) && Logged(old(log), log, Other("UserMessageAdded"))
        && exists ending :: Looped(old(begun), old(roundsUsed), ending, r)
    {
      hide Valid, Quiet, Looped, Logged, Kept, CanReason;
      if state != AgentState.AwaitingUser {
        return Error;
      }
      var ok := TakeAnswer();
      if !ok {
        return Error;
      }
      ghost var told := log;
      ReasoningStates();
      ghost var ending: Ending;
      r, ending := DriveLoop();
      LoggedLater(old(log), told, log);
    }

    /** Pauses from read and reason phases only; elsewhere nothing happens. */
    method Pause() returns (ok: bool)
      requires Ready() && BudgetOk()
      modifies `log, `row, `next, `pc, `unsaved, `states, `labels, `state
      ensures Ready() && (old(Quiet()) ==> Quiet()) && BudgetOk()
      ensures old(state) in {Running, Reasoning, Acting, Observing, Diagnosed, PlanningChange} ==>
        && state == AgentState.Paused
        && (old(Caught()) ==> ok && Caught())
        && (ok ==> log == old(log) + [Entry(old(next), Other("RunPaused"))])
      ensures old(state) !in {Running, Reasoning, Acting, Observing, Diagnosed, PlanningChange} ==>
        !ok && unchanged(this)
    {
      hide Valid, Quiet;
      if state !in {Running, Reasoning, Acting, Observing, Diagnosed, PlanningChange} {
        return false;
      }
      var moved := Move(AgentState.Paused);
      ok := Note("RunPaused");
    }

    /** Goes on with a paused run; elsewhere nothing happens. */
    method Resume() returns (r: Outcome)
      requires Ready() && BudgetOk()
      modifies this
      ensures Ready() && (old(Quiet()) ==> Quiet()) && BudgetOk() && executed == old(executed)
      ensures old(state) != AgentState.Paused ==>
        r == Error && unchanged(this)
      ensures old(Caught()) && old(state) == AgentState.Paused ==>
        && Caught() && Kept(old(Holdings()), Holdings()) && Logged(old(log), log, Other("RunResumed"))
        && exists ending :: Looped(old(begun), old(roundsUsed), ending, r)
    {
      hide Valid, Quiet, Looped, Kept;
      if state != AgentState.Paused {
        return Error;
      }
      var moved := Move(Running);
      ghost var ending: Ending;
      r, ending := ResumeLoop();
    }

    /** Ends a run that has not ended, whatever it waits for; elsewhere nothing happens. */
    method Cancel() returns (r: Outcome)
      requires Ready() && BudgetOk()
      modifies `log, `row, `next, `pc, `unsaved, `states, `labels, `state
      ensures Ready() && (old(Quiet()) ==> Quiet()) && BudgetOk()
      ensures r == Outcome.Cancelled || r == Error
      ensures old(state).IsTerminal() ==> r == Error && unchanged(this)
      ensures !old(state).IsTerminal() ==>
        && state == AgentState.Cancelled
        && (old(Caught()) ==> r == Outcome.Cancelled && Caught())
        && (r == Outcome.Cancelled ==> log == old(log) + [Entry(old(next), Other("RunCancelled"))])
    {
      hide Valid, Quiet;
      if state.IsTerminal() {
        return Error;
      }
      r := Finish(AgentState.Cancelled, "RunCancelled");
    }

    // ---- A whole lifetime ------------------------------------------------------------------------------

    /** Whatever the service asks of one controller, in any order, the tool budget holds after every call. */
    method Serve(calls: seq<ServiceCall>)
      requires Ready() && BudgetOk()
      modifies this
      ensures Ready() && BudgetOk()
    {
      hide Valid, Quiet;
      for i := 0 to |calls|
        invariant Ready() && BudgetOk()
      {
        var r := ServeOne(calls[i]);
      }
    }

    method ServeOne(call: ServiceCall) returns (r: Outcome)
      requires Ready() && BudgetOk()
      modifies this
      ensures Ready() && BudgetOk()
    {
      hide Valid, Quiet;
      r := Error;
      match call
      case Start =>
        if state != AgentState.AwaitingApproval {
          r := RunToInterrupt();
        }
      case Grant(a, matches) => r := Approve(a, matches);
      case Deny(a) => r := Reject(a);
      case NextTurn => r := ContinueConversation();
      case Retry => r := RetryAfterFailure();
      case Answer => r := ResumeWithUserInput();
      case Rest =>
        var paused := Pause();
      case GoOn => r := Resume();
      case Stop => r := Cancel();
    }
  }

  /** A new controller that reasons, under a policy that blocks everything. */
  method NewBlocked(overlap: Overlap, maxRounds: nat, maxToolCalls: nat) returns (c: Controller)
    ensures fresh(c) && c.Ready() && c.Caught() && c.BudgetOk() && c.state == Reasoning
    ensures c.roundsUsed == c.toolCallsUsed == 0 && c.maxRounds == maxRounds && c.maxToolCalls == maxToolCalls
    ensures forall moment, i, call :: c.policy(moment, i, call) == Blocked
  {
    hide Controller.Valid, Controller.Quiet;
    c := new Controller(overlap, (moment, i, call) => Blocked, (moment, text) => true,
      Surroundings(n => false, n => false, n => Invalid, n => false), maxRounds, maxToolCalls, 0);
    var moved := c.Move(Running);
    moved := c.Move(Reasoning);
  }

  /**
   A batch of which policy blocks every call, on a new run: it ends in Acting without an error, and the next
   round, though neither cancelled nor late nor out of rounds, ends in one.
   */
  method BlockedBatchStrands(overlap: Overlap, calls: seq<string>, maxRounds: nat)
    returns (c: Controller, batch: Outcome, round: Outcome)
    requires calls != [] && maxRounds > 0
    ensures fresh(c) && batch == Proceed && round == Error && c.state == Acting
  {
    hide Controller.Valid, Controller.Quiet, Controller.Waiting;
    c := NewBlocked(overlap, maxRounds, |calls|);
    batch := c.ExecuteAuthorizedCalls(calls);
    round := c.BeginRound(false, false);
  }

  lemma QuietExtend(overlap: Overlap, states: seq<System>, labels: seq<Label>, step: Label, t: System)
    requires Run(overlap, states, labels) && Run(overlap, states + [t], labels + [step])
    ensures QuietRun(overlap, states, labels) && Guarded(states[|labels|], step) ==>
      QuietRun(overlap, states + [t], labels + [step])
  {
  }

  lemma PlainIsGuarded(s: System, step: Label)
    requires !step.Approve? && !step.Reject? && !step.Crash?
    ensures Guarded(s, step)
  {
  }

  lemma EmittedIsNumbered(
    overlap: Overlap, states: seq<System>, labels: seq<Label>, step: Label, s: System, m: Memory, event: Event, pc: Pc)
    requires Run(overlap, states, labels) && |states| == |labels| + 1
    requires Step(overlap, states[|labels|], step) == Some(Emit(s, m, event, pc))
    ensures LastSequence(s.log) <= |s.log|
  {
    hide Run, Step, Safe, Numbered;
    RunSafe(overlap, states, labels, |labels|);
    StepKeeps(overlap, states[|labels|], step);
    var t := Emit(s, m, event, pc);
    SafeLog(t);
    LastOfPrefix(s.log, t.log);
  }

  lemma SafeLog(s: System)
    requires Safe(s)
    ensures Numbered(s.log)
  {
  }

  lemma LastOfPrefix(log: seq<Entry>, more: seq<Entry>)
    requires Numbered(more) && log <= more
    ensures LastSequence(log) == |log|
  {
  }

  lemma EmitIs(s: System, m: Memory, event: Event, pc: Pc)
    ensures Emit(s, m, event, pc) ==
      if m.next <= LastSequence(s.log) then s.(memory := Some(m.(next := m.next + 1, pc := Idle)))
      else
        s.(log := s.log + [Entry(m.next, event)],
           memory := Some(m.(next := m.next + 1, unsaved := true, pc := pc)))
  {
  }

  lemma EmitTold(s: System, t: System, m: Memory, event: Event, pc: Pc)
    requires t == s.(memory := t.memory)
    ensures Emit(s, m, event, pc) == Emit(t, m, event, pc)
  {
  }

  lemma OutcomeIs(overlap: Overlap, s: System, m: Memory, x: Action, success: bool)
    requires s.memory == Some(m) && !m.unsaved && m.pc == Observed(x, success)
    ensures Step(overlap, s, Advance) ==
      Some(Emit(s,
        m.(verification := NeedsVerification(x, success, m.verification),
           priors := if x.isCall then m.priors else m.priors + [x.text]),
        AgentModel.Outcome(x, success), Idle))
  {
  }

  lemma ProposeIs(overlap: Overlap, s: System, m: Memory, text: string, mutability: Mutability)
    requires s.memory == Some(m) && !m.unsaved && m.pc == Idle && m.state == Reasoning
    ensures Step(overlap, s, Propose(text, mutability)) ==
      Some(Emit(s.(supply := s.supply + 1), m, CommandProposed(s.supply, text, mutability),
        Proposed(Action(s.supply, false, text, mutability))))
  {
  }

  lemma ProposeCallIs(overlap: Overlap, s: System, m: Memory, text: string)
    requires s.memory == Some(m) && !m.unsaved && m.pc == Idle && m.state == Acting
    ensures Step(overlap, s, ProposeCall(text)) ==
      Some(Emit(s.(supply := s.supply + 1), m, ToolApprovalRequired(s.supply),
        CallAnnounced(Action(s.supply, true, text, ReadIntent))))
  {
  }

  lemma SaveRowIs(overlap: Overlap, s: System, m: Memory)
    requires s.memory == Some(m) && m.unsaved
    ensures Step(overlap, s, SaveRow) == Some(s.(row := Row(m.state, m.next), memory := Some(m.(unsaved := false))))
  {
  }

  lemma RehydrateIs(overlap: Overlap, s: System, extra: seq<string>)
    requires s.memory.None?
    ensures Step(overlap, s, AgentModel.Rehydrate(extra)) ==
      Some(s.(memory := Some(Memory(s.row.state, if s.row.cursor == 0 then 1 else s.row.cursor, false,
        Extract(s.log), Finished(s.log) + extra, Idle))))
  {
  }

  lemma InsertIs(overlap: Overlap, s: System, m: Memory, x: Action)
    requires s.memory == Some(m) && !m.unsaved && m.pc == if x.isCall then CallAnnounced(x) else Stored(x)
    ensures Step(overlap, s, Advance) ==
      Some(s.(approvals := s.approvals[s.supply := Request(s.supply, x.id, x.isCall, x.text, Pending)],
        supply := s.supply + 1,
        memory := Some(m.(pc := if x.isCall then CallInserted(x, s.supply) else Inserted(x, s.supply)))))
  {
  }

  lemma DenyIs(overlap: Overlap, s: System, m: Memory, a: Id, to: RequestState, step: Label)
    requires s.memory == Some(m) && !m.unsaved && m.pc == Idle && m.state == AgentState.AwaitingApproval
    requires a in s.approvals && s.approvals[a].actionId in s.pending
    requires (step == AgentModel.Reject(a) && to == Rejected)
      || (exists matches :: step == AgentModel.Approve(a, matches) && to == Invalidated
            && !AgentModel.Valid(s.approvals[a], s.pending[s.approvals[a].actionId], matches))
    ensures Step(overlap, s, step) ==
      Some(Decided(s, m, a, to, DenySaved(s.pending[s.approvals[a].actionId], a, to)))
  {
  }

  lemma SweepIs(overlap: Overlap, s: System, m: Memory, a: Id)
    requires s.memory == Some(m) && !m.unsaved && m.pc == Idle && m.state.IsTerminal()
    requires a in s.approvals && s.approvals[a].state == Pending
    ensures Step(overlap, s, Sweep(a)) == Some(Decided(s, m, a, Invalidated, Swept(a)))
  {
  }

  lemma SweptIs(overlap: Overlap, s: System, m: Memory, a: Id)
    requires s.memory == Some(m) && !m.unsaved && m.pc == Swept(a)
    ensures Step(overlap, s, Advance) == Some(Emit(s, m, ApprovalInvalidated(a), Idle))
  {
  }

  lemma StoredIds(s: System)
    requires Safe(s)
    ensures forall id :: id in s.pending ==> s.pending[id].id == id && id < s.supply
    ensures forall a :: a in s.approvals ==> a < s.supply
  {
  }

  /** What is stored: the approvals, the actions that wait, and where new ids begin. */
  datatype Stock = Stock(approvals: map<Id, Request>, pending: map<Id, Action>, supply: nat)

  /** What was stored or decided is as it was, beside what came under new ids. */
  ghost predicate Kept(s: Stock, t: Stock) {
    && s.supply <= t.supply
    && (forall a :: a in s.approvals ==> a in t.approvals && t.approvals[a] == s.approvals[a])
    && (forall id :: id in s.pending ==> id in t.pending && t.pending[id] == s.pending[id])
    && (forall id :: id in t.pending && id !in s.pending ==> s.supply <= id)
  }

  /** Parking for the approval of a new action, both under new ids, keeps the rest. */
  lemma ParkKeeps(s: Stock, t: Stock, a: Id)
    requires forall b :: b in s.approvals ==> b < s.supply
    requires forall id :: id in s.pending ==> id < s.supply
    requires s.supply < a && s.supply <= t.supply && a in t.approvals
    requires t.approvals == s.approvals[a := t.approvals[a]]
    requires s.supply in t.pending && t.pending == s.pending[s.supply := t.pending[s.supply]]
    ensures Kept(s, t)
  {
  }

  /** The log went on, first of all with this event. */
  ghost predicate Logged(before: seq<Entry>, after: seq<Entry>, event: Event) {
    before <= after && |before| < |after| && after[|before|].event == event
  }

  /** Approval `a` is granted, its action gone from the store, and the log went on with grant, start and outcome. */
  ghost predicate Carried(s: Stock, before: seq<Entry>, t: Stock, after: seq<Entry>, a: Id, x: Action) {
    && a in s.approvals && a in t.approvals && t.approvals[a] == s.approvals[a].(state := Granted)
    && x.id !in t.pending
    && before <= after && |before| + 3 <= |after|
    && after[|before|].event == ApprovalGranted(a)
    && after[|before| + 1].event == (if x.isCall then ToolStarted(x.id) else CommandStarted(x.id))
    && var told := after[|before| + 2].event;
       if x.isCall then told.ToolFinished? && told.callId == x.id
       else told == CommandCompleted(x.id) || told == CommandFailed(x.id)
  }

  /** Approval `a` is rejected or invalidated, its action gone from the store, and the log went on with that. */
  ghost predicate Refused(
    s: Stock, before: seq<Entry>, t: Stock, after: seq<Entry>, a: Id, x: Action, to: RequestState)
  {
    && a in s.approvals && a in t.approvals && t.approvals[a] == s.approvals[a].(state := to)
    && x.id !in t.pending
    && Logged(before, after, if to == Rejected then ApprovalRejected(a) else ApprovalInvalidated(a))
  }

  lemma CarriedNow(
    s: Stock, before: seq<Entry>, t: Stock, after: seq<Entry>, a: Id, x: Action, next: nat, success: bool)
    requires a in s.approvals && t.approvals == s.approvals[a := s.approvals[a].(state := Granted)]
    requires t.pending == s.pending - {x.id}
    requires after == before + [Entry(next, ApprovalGranted(a))]
      + [Entry(next + 1, if x.isCall then ToolStarted(x.id) else CommandStarted(x.id))]
      + [Entry(next + 2, AgentModel.Outcome(x, success))]
    ensures Carried(s, before, t, after, a, x)
  {
  }

  lemma RefusedNow(
    s: Stock, before: seq<Entry>, t: Stock, after: seq<Entry>, a: Id, x: Action, to: RequestState, next: nat)
    requires a in s.approvals && t.approvals == s.approvals[a := s.approvals[a].(state := to)]
    requires t.pending == s.pending - {x.id}
    requires after == before + [Entry(next, if to == Rejected then ApprovalRejected(a) else ApprovalInvalidated(a))]
      + [Entry(next + 1, Other("ObservationAdded"))]
    ensures Refused(s, before, t, after, a, x, to)
  {
  }

  /** What was settled stays settled while the run only goes on. */
  lemma SettledLater(
    s: Stock, before: seq<Entry>, t: Stock, after: seq<Entry>, u: Stock, later: seq<Entry>, a: Id, x: Action,
    to: RequestState)
    requires x.id < t.supply
    ensures Kept(t, u) && after <= later && Carried(s, before, t, after, a, x) ==> Carried(s, before, u, later, a, x)
    ensures Kept(t, u) && after <= later && Refused(s, before, t, after, a, x, to) ==>
      Refused(s, before, u, later, a, x, to)
  {
  }

  lemma LoggedLater(before: seq<Entry>, after: seq<Entry>, later: seq<Entry>)
    ensures forall event :: after <= later && Logged(before, after, event) ==> Logged(before, later, event)
  {
  }

  lemma ActingMoves()
    ensures Reasoning.CanTransitionTo(Acting) && !Acting.CanTransitionTo(Reasoning)
    ensures Observing.CanTransitionTo(Reasoning) && !AgentState.AwaitingApproval.CanTransitionTo(Observing)
  {
  }

  lemma SameKeeps(s: Stock, t: Stock)
    requires s == t.(supply := s.supply) && s.supply <= t.supply
    ensures Kept(s, t)
  {
  }

  lemma KeptOn(s: Stock, t: Stock, u: Stock)
    ensures Kept(s, t) && Kept(t, u) ==> Kept(s, u)
  {
  }

  lemma NothingLeft(approvals: map<Id, Request>, left: set<Id>)
    requires left == {} && forall a :: a in approvals && approvals[a].state == Pending ==> a in left
    ensures NonePending(approvals)
  {
  }

  /** Approvals keep their bindings; some that were pending are invalidated. */
  ghost predicate Withdrawn(before: map<Id, Request>, after: map<Id, Request>) {
    && after.Keys == before.Keys
    && forall a :: a in after ==>
         after[a] == before[a] || (before[a].state == Pending && after[a] == before[a].(state := Invalidated))
  }

  lemma QuietIsRun(overlap: Overlap, states: seq<System>, labels: seq<Label>)
    requires QuietRun(overlap, states, labels)
    ensures Run(overlap, states, labels)
  {
  }
}
