/**
 The durable agent run as a state machine. A run is driven by a controller in memory through single
 durable writes; a crash may fall between any two of them, and a restarted process rebuilds the
 controller from what is on disk. Reasoner, policy and remote host are arbitrary.
 */
module AgentModel {
  import opened Basics

  datatype AgentState =
    | Created | Running | Reasoning | Acting | Observing | AwaitingApproval | AwaitingUser | Diagnosed
    | PlanningChange | ExecutingChange | Verifying | RollingBack | Paused | Completed | Failed | Cancelled
  {
    predicate IsTerminal() {
      Completed? || Failed? || Cancelled?
    }

    predicate IsInterrupt() {
      AwaitingApproval? || AwaitingUser? || Paused?
    }

    predicate CanTransitionTo(next: AgentState) {
      if IsTerminal() then false
      else if next.Cancelled? || next.Failed? then true
      else match this
        case Created => next.Running?
        case Running => next.Reasoning? || next.Paused?
        case Reasoning =>
          next.Acting? || next.AwaitingApproval? || next.AwaitingUser? || next.PlanningChange? || next.Diagnosed?
          || next.Completed? || next.Paused?
        case Acting => next.Observing? || next.AwaitingApproval? || next.Paused?
        case Observing => next.Reasoning? || next.Diagnosed? || next.Paused?
        case AwaitingApproval => next.Acting? || next.ExecutingChange? || next.Reasoning?
        case AwaitingUser => next.Reasoning?
        case Diagnosed => next.PlanningChange? || next.Reasoning? || next.Completed? || next.Paused?
        case PlanningChange =>
          next.AwaitingApproval? || next.ExecutingChange? || next.Reasoning? || next.Paused?
        case ExecutingChange => next.Verifying? || next.RollingBack? || next.Reasoning?
        case Verifying => next.Completed? || next.Reasoning? || next.RollingBack?
        case RollingBack => next.Reasoning? || next.Completed?
        case Paused => next.Running? || next.Reasoning?
        case _ => false
    }
  }

  datatype Mutability = ReadIntent | Mutating | Unknown

  /** What an approval authorises: one shell command, or one typed tool call in its canonical form. */
  datatype Action = Action(id: Id, isCall: bool, text: string, mutability: Mutability)

  datatype RequestState = Pending | Granted | Rejected | Invalidated

  /** `text` stands for the hash of the action's canonical form. */
  datatype Request = Request(id: Id, actionId: Id, isCall: bool, text: string, state: RequestState)

  /** The events the protocol depends on; `Other` is any further event, by a tag of its content. */
  datatype Event =
    | CommandProposed(commandId: Id, command: string, mutability: Mutability)
    | CommandApprovalRequired(approvalId: Id, commandId: Id)
    | ToolApprovalRequired(callId: Id)
    | ApprovalGranted(approvalId: Id)
    | ApprovalRejected(approvalId: Id)
    | ApprovalInvalidated(approvalId: Id)
    | CommandStarted(commandId: Id)
    | CommandCompleted(commandId: Id)
    | CommandFailed(commandId: Id)
    | ToolStarted(callId: Id)
    | ToolFinished(callId: Id, success: bool)
    | RunCompleted
    | Other(tag: string)

  datatype Entry = Entry(sequence: nat, event: Event)

  /** The run's row: its state and its event cursor. */
  datatype Row = Row(state: AgentState, cursor: nat)

  /** Where a controller method stands between two durable writes. */
  datatype Pc =
    | Idle
    | Proposed(x: Action)                  // command proposal logged
    | Stored(x: Action)                    // pending command stored
    | Inserted(x: Action, a: Id)           // approval row inserted
    | Announced(x: Action, a: Id)          // approval announced in the log
    | CallAnnounced(x: Action)             // tool approval announced in the log
    | CallInserted(x: Action, a: Id)       // approval row inserted
    | CallStored(x: Action, a: Id)         // pending call stored
    | GrantSaved(x: Action, a: Id)         // approval row granted
    | GrantHalf(x: Action, a: Id)          // and either logged (call) or no longer pending (command)
    | GrantDone(x: Action, a: Id)          // and both
    | ReadyToStart(x: Action, a: Id)       // state Acting
    | Started(x: Action, a: Id)            // start logged
    | Executed(x: Action, success: bool)   // the host has executed it
    | Observed(x: Action, success: bool)   // state Observing
    | DenySaved(x: Action, a: Id, to: RequestState)
    | DenyRemoved(a: Id, to: RequestState)
    | DenyLogged
    | Swept(a: Id)
    | Finishing                            // state Completed, event not yet logged

  /** The controller in memory. `unsaved`: an event is logged but the row's cursor is not yet. */
  datatype Memory = Memory(
    state: AgentState, next: nat, unsaved: bool, verification: bool, priors: seq<string>, pc: Pc)

  /** `executed` is what the remote host has seen; `supply` bounds all ids drawn so far. */
  datatype System = System(
    log: seq<Entry>, row: Row, approvals: map<Id, Request>, pending: map<Id, Action>,
    executed: seq<Action>, supply: nat, memory: Option<Memory>)

  datatype Label =
    | Note(tag: string)
    | Attempt(text: string)
    | Move(next: AgentState)
    | Propose(text: string, mutability: Mutability)
    | ProposeCall(text: string)
    | Drop
    | Advance
    | Approve(a: Id, matches: bool)
    | Reject(a: Id)
    | Execute(success: bool)
    | Sweep(a: Id)
    | Reopen
    | Complete
    | SaveRow
    | Crash
    | Detach
    | CancelRow
    | Rehydrate(extra: seq<string>)

  // ---- Reading the log -----------------------------------------------------------------------

  /** The mutability the log gives a command: its latest proposal's. */
  function MutabilityIn(log: seq<Entry>, id: Id): (m: Option<Mutability>) {
    if log == [] then None
    else
      var last := log[|log| - 1].event;
      if last.CommandProposed? && last.commandId == id then Some(last.mutability)
      else MutabilityIn(log[..|log| - 1], id)
  }

  function TextIn(log: seq<Entry>, id: Id): (t: Option<string>) {
    if log == [] then None
    else
      var last := log[|log| - 1].event;
      if last.CommandProposed? && last.commandId == id then Some(last.command) else TextIn(log[..|log| - 1], id)
  }

  /** Replay: whether a finished command still calls for verification. */
  function Extract(log: seq<Entry>): (required: bool) {
    if log == [] then false
    else
      var front, last := log[..|log| - 1], log[|log| - 1].event;
      match last
      case CommandCompleted(id) =>
        (match MutabilityIn(front, id)
         case Some(ReadIntent) => false
         case Some(_) => true
         case None => Extract(front))
      case CommandFailed(id) =>
        (match MutabilityIn(front, id)
         case Some(Mutating) => true
         case Some(Unknown) => true
         case _ => Extract(front))
      case _ => Extract(front)
  }

  /** Replay: the commands the log shows as finished. */
  function Finished(log: seq<Entry>): (texts: seq<string>) {
    if log == [] then []
    else
      var front, last := log[..|log| - 1], log[|log| - 1].event;
      match last
      case CommandCompleted(id) =>
        Finished(front) + [if TextIn(front, id).Some? then TextIn(front, id).value else "unknown"]
      case CommandFailed(id) =>
        Finished(front) + [if TextIn(front, id).Some? then TextIn(front, id).value else "unknown"]
      case _ => Finished(front)
  }

  function LastSequence(log: seq<Entry>): (n: nat) {
    if log == [] then 0 else log[|log| - 1].sequence
  }

  // ---- Steps ---------------------------------------------------------------------------------

  /** An emission: refused when the number is not past the log, and then the method gives up. */
  function Emit(s: System, m: Memory, event: Event, pc: Pc): (t: System)
    ensures t == s.(log := t.log, memory := t.memory)
    ensures t.log == s.log || t.log == s.log + [Entry(m.next, event)]
    ensures t.memory.Some? && (t.memory.value.pc == pc || t.memory.value.pc == Idle)
  {
    if m.next <= LastSequence(s.log) then s.(memory := Some(m.(next := m.next + 1, pc := Idle)))
    else
      s.(log := s.log + [Entry(m.next, event)],
         memory := Some(m.(next := m.next + 1, unsaved := true, pc := pc)))
  }

  /** A transition saves state and cursor in one write. */
  function Transit(s: System, m: Memory, next: AgentState, pc: Pc): System {
    s.(row := Row(next, m.next), memory := Some(m.(state := next, pc := pc)))
  }

  predicate Valid(r: Request, x: Action, matches: bool) {
    r.state == Pending && r.actionId == x.id && r.isCall == x.isCall && r.text == x.text && matches
  }

  predicate Similar(overlap: (string, string) -> bool, text: string, priors: seq<string>) {
    exists i :: 0 <= i < |priors| && overlap(text, priors[i])
  }

  function NeedsVerification(x: Action, success: bool, before: bool): bool {
    if x.isCall then before
    else match x.mutability
      case ReadIntent => if success then false else before
      case _ => true
  }

  function Outcome(x: Action, success: bool): Event {
    if x.isCall then ToolFinished(x.id, success)
    else if success then CommandCompleted(x.id) else CommandFailed(x.id)
  }

  function Denial(a: Id, to: RequestState): Event {
    if to == Rejected then ApprovalRejected(a) else ApprovalInvalidated(a)
  }

  /** The next write of the method in progress. */
  function Advanced(overlap: (string, string) -> bool, s: System, m: Memory): Option<System> {
    match m.pc
    case Proposed(x) =>
      if Similar(overlap, x.text, m.priors) then None
      else Some(s.(pending := s.pending[x.id := x], memory := Some(m.(pc := Stored(x)))))
    case Stored(x) =>
      var a := s.supply;
      Some(s.(approvals := s.approvals[a := Request(a, x.id, false, x.text, Pending)], supply := a + 1,
              memory := Some(m.(pc := Inserted(x, a)))))
    case Inserted(x, a) => Some(Emit(s, m, CommandApprovalRequired(a, x.id), Announced(x, a)))
    case Announced(x, a) =>
      if m.state.CanTransitionTo(AwaitingApproval) then Some(Transit(s, m, AwaitingApproval, Idle)) else None
    case CallAnnounced(x) =>
      var a := s.supply;
      Some(s.(approvals := s.approvals[a := Request(a, x.id, true, x.text, Pending)], supply := a + 1,
              memory := Some(m.(pc := CallInserted(x, a)))))
    case CallInserted(x, a) => Some(s.(pending := s.pending[x.id := x], memory := Some(m.(pc := CallStored(x, a)))))
    case CallStored(x, a) =>
      if m.state.CanTransitionTo(AwaitingApproval) then Some(Transit(s, m, AwaitingApproval, Idle)) else None
    case GrantSaved(x, a) =>
      if x.isCall then Some(Emit(s, m, ApprovalGranted(a), GrantHalf(x, a)))
      else Some(s.(pending := s.pending - {x.id}, memory := Some(m.(pc := GrantHalf(x, a)))))
    case GrantHalf(x, a) =>
      if x.isCall then Some(s.(pending := s.pending - {x.id}, memory := Some(m.(pc := GrantDone(x, a)))))
      else Some(Emit(s, m, ApprovalGranted(a), GrantDone(x, a)))
    case GrantDone(x, a) =>
      if m.state.CanTransitionTo(Acting) then Some(Transit(s, m, Acting, ReadyToStart(x, a))) else None
    case ReadyToStart(x, a) =>
      Some(Emit(s, m, if x.isCall then ToolStarted(x.id) else CommandStarted(x.id), Started(x, a)))
    case Executed(x, success) =>
      if m.state.CanTransitionTo(Observing) then Some(Transit(s, m, Observing, Observed(x, success))) else None
    case Observed(x, success) =>
      var told := m.(
        verification := NeedsVerification(x, success, m.verification),
        priors := if x.isCall then m.priors else m.priors + [x.text]);
      Some(Emit(s, told, Outcome(x, success), Idle))
    case DenySaved(x, a, to) => Some(s.(pending := s.pending - {x.id}, memory := Some(m.(pc := DenyRemoved(a, to)))))
    case DenyRemoved(a, to) => Some(Emit(s, m, Denial(a, to), DenyLogged))
    case DenyLogged =>
      if m.state.CanTransitionTo(Reasoning) then Some(Transit(s, m, Reasoning, Idle)) else None
    case Swept(a) => Some(Emit(s, m, ApprovalInvalidated(a), Idle))
    case Finishing => Some(Emit(s, m, RunCompleted, Idle))
    case _ => None
  }

  /** An approval is decided only while the run waits for one and its action is still stored. */
  predicate Decidable(s: System, m: Memory, a: Id) {
    && m.pc == Idle && m.state == AwaitingApproval
    && a in s.approvals && s.approvals[a].actionId in s.pending
  }

  function Decided(s: System, m: Memory, a: Id, to: RequestState, pc: Pc): System
    requires a in s.approvals
  {
    s.(approvals := s.approvals[a := s.approvals[a].(state := to)], memory := Some(m.(pc := pc)))
  }

  function Recovered(state: AgentState): AgentState {
    if state.IsTerminal() || state.IsInterrupt() || state == Created then state else Paused
  }

  predicate NonePending(approvals: map<Id, Request>) {
    forall a :: a in approvals ==> approvals[a].state != Pending
  }

  /** Steps of a controller in memory. */
  function Driven(overlap: (string, string) -> bool, s: System, m: Memory, step: Label): Option<System> {
    if m.unsaved then
      if step.SaveRow? then Some(s.(row := Row(m.state, m.next), memory := Some(m.(unsaved := false)))) else None
    else match step
      case Note(tag) =>
        if m.pc == Idle || m.pc == DenyLogged then Some(Emit(s, m, Other(tag), m.pc)) else None
      case Attempt(text) =>
        if m.pc == Idle then Some(s.(memory := Some(m.(priors := m.priors + [text])))) else None
      case Move(next) =>
        if m.pc == Idle && m.state.CanTransitionTo(next) && next != AwaitingApproval && next != Completed
           && (m.state == AwaitingApproval ==> next.IsTerminal())
        then Some(Transit(s, m, next, Idle)) else None
      case Propose(text, mutability) =>
        var x := Action(s.supply, false, text, mutability);
        if m.pc == Idle && m.state == Reasoning then
          Some(Emit(s.(supply := s.supply + 1), m, CommandProposed(x.id, text, mutability), Proposed(x)))
        else None
      case ProposeCall(text) =>
        var x := Action(s.supply, true, text, ReadIntent);
        if m.pc == Idle && m.state == Acting then
          Some(Emit(s.(supply := s.supply + 1), m, ToolApprovalRequired(x.id), CallAnnounced(x)))
        else None
      case Drop => if m.pc.Proposed? then Some(s.(memory := Some(m.(pc := Idle)))) else None
      case Advance => Advanced(overlap, s, m)
      case Approve(a, matches) =>
        if !Decidable(s, m, a) then None
        else
          var x := s.pending[s.approvals[a].actionId];
          if Valid(s.approvals[a], x, matches) then Some(Decided(s, m, a, Granted, GrantSaved(x, a)))
          else Some(Decided(s, m, a, Invalidated, DenySaved(x, a, Invalidated)))
      case Reject(a) =>
        if !Decidable(s, m, a) then None
        else Some(Decided(s, m, a, Rejected, DenySaved(s.pending[s.approvals[a].actionId], a, Rejected)))
      case Execute(success) =>
        if m.pc.Started? then
          Some(s.(executed := s.executed + [m.pc.x], memory := Some(m.(pc := Executed(m.pc.x, success)))))
        else None
      case Sweep(a) =>
        if m.pc == Idle && m.state.IsTerminal() && a in s.approvals && s.approvals[a].state == Pending
        then Some(Decided(s, m, a, Invalidated, Swept(a))) else None
      case Reopen =>
        if m.pc == Idle && m.state.IsTerminal() && NonePending(s.approvals)
        then Some(Transit(s, m, Reasoning, Idle)) else None
      case Complete =>
        if m.pc == Idle && m.state.CanTransitionTo(Completed) && m.state == Reasoning && !m.verification
        then Some(Transit(s, m, Completed, Finishing)) else None
      case Detach => if m.pc == Idle then Some(s.(memory := None)) else None
      case _ => None
  }

  /** One step of the run, if it can be taken. */
  function Step(overlap: (string, string) -> bool, s: System, step: Label): Option<System> {
    if step.Crash? then Some(s.(row := s.row.(state := Recovered(s.row.state)), memory := None))
    else match s.memory
      case Some(m) => Driven(overlap, s, m, step)
      case None =>
        match step
        case CancelRow =>
          if s.row.state.IsTerminal() then None else Some(s.(row := s.row.(state := Cancelled)))
        case Rehydrate(extra) =>
          Some(s.(memory := Some(Memory(s.row.state, if s.row.cursor == 0 then 1 else s.row.cursor, false,
                                        Extract(s.log), Finished(s.log) + extra, Idle))))
        case _ => None
  }

  /** A run as it is created: nothing logged, the controller in memory. */
  function Initial(supply: nat): System {
    System([], Row(Created, 1), map[], map[], [], supply,
      Some(Memory(Created, 1, false, false, [], Idle)))
  }

  /** `states` is a run of `labels` from creation. */
  ghost predicate Run(overlap: (string, string) -> bool, states: seq<System>, labels: seq<Label>) {
    && |states| == |labels| + 1
    && states[0] == Initial(states[0].supply)
    && forall n :: 0 <= n < |labels| ==> Step(overlap, states[n], labels[n]) == Some(states[n + 1])
  }
}
