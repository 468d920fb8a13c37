/**
 What holds at every point of every agent run, with crashes between any two writes: each approved
 action is executed at most once and exactly as approved, execution is preceded in the log by its
 grant, the log has no gaps, live state equals replay, and no run completes unverified.
 */
module AgentSafety {
  import opened Basics
  import opened AgentModel

  // ---- The invariant -------------------------------------------------------------------------

  ghost predicate Has(log: seq<Entry>, event: Event) {
    exists i :: 0 <= i < |log| && log[i].event == event
  }

  ghost predicate WasExecuted(s: System, id: Id) {
    exists i :: 0 <= i < |s.executed| && s.executed[i].id == id
  }

  /** The log says what the command is, so replay can classify it. */
  ghost predicate Recorded(log: seq<Entry>, x: Action) {
    !x.isCall ==> MutabilityIn(log, x.id) == Some(x.mutability) && TextIn(log, x.id) == Some(x.text)
  }

  ghost predicate Bound(s: System, x: Action, a: Id, state: RequestState) {
    a in s.approvals && s.approvals[a] == Request(a, x.id, x.isCall, x.text, state)
  }

  /** Every id in use was drawn from the supply, and no two approvals share an action. */
  ghost predicate Ids(s: System) {
    && (forall a :: a in s.approvals ==> s.approvals[a].id == a && a < s.supply && s.approvals[a].actionId < s.supply)
    && (forall a, b :: a in s.approvals && b in s.approvals && s.approvals[a].actionId == s.approvals[b].actionId ==>
         a == b)
    && (forall id :: id in s.pending ==> s.pending[id].id == id && id < s.supply)
  }

  /** Action `x` was executed as some approval, no longer pending, binds it. */
  ghost predicate Authorised(s: System, x: Action) {
    exists a :: a in s.approvals && s.approvals[a].state != Pending
      && s.approvals[a] == Request(a, x.id, x.isCall, x.text, s.approvals[a].state)
  }

  ghost predicate Executions(s: System) {
    && (forall i :: 0 <= i < |s.executed| ==> Authorised(s, s.executed[i]))
    && (forall i, j :: 0 <= i < j < |s.executed| ==> s.executed[i].id != s.executed[j].id)
    && (forall a :: a in s.approvals && s.approvals[a].state == Pending ==> !WasExecuted(s, s.approvals[a].actionId))
  }

  ghost predicate Numbered(log: seq<Entry>) {
    forall i :: 0 <= i < |log| ==> log[i].sequence == i + 1
  }

  /** Approval `a` of action `id` was granted before position `j` of the log. */
  ghost predicate GrantedBefore(log: seq<Entry>, approvals: map<Id, Request>, j: nat, id: Id, a: Id)
    requires j <= |log|
  {
    && a in approvals && approvals[a].actionId == id && approvals[a].state != Pending
    && Has(log[..j], ApprovalGranted(a))
  }

  ghost predicate StartsGranted(log: seq<Entry>, approvals: map<Id, Request>) {
    forall j :: 0 <= j < |log| && log[j].event.CommandStarted? ==>
      exists a :: GrantedBefore(log, approvals, j, log[j].event.commandId, a)
  }

  ghost predicate CompletionsVerified(log: seq<Entry>) {
    forall j :: 0 <= j < |log| && log[j].event.RunCompleted? ==> !Extract(log[..j])
  }

  ghost predicate Base(s: System) {
    && Ids(s) && Executions(s) && Numbered(s.log) && StartsGranted(s.log, s.approvals) && CompletionsVerified(s.log)
    && (forall id :: id in s.pending ==> Recorded(s.log, s.pending[id]))
    && s.row.cursor <= |s.log| + 1
  }

  /** The action has no approval yet and has not been executed. */
  ghost predicate Unused(s: System, x: Action) {
    && x.id < s.supply && !WasExecuted(s, x.id)
    && forall a :: a in s.approvals ==> s.approvals[a].actionId != x.id
  }

  ghost predicate PcOk(s: System, m: Memory) {
    var caught := m.next == |s.log| + 1;
    match m.pc
    case Proposed(x) => !x.isCall && Unused(s, x) && Recorded(s.log, x) && caught
    case Stored(x) => !x.isCall && Unused(s, x) && Recorded(s.log, x) && caught
    case Inserted(x, a) => !x.isCall && Bound(s, x, a, Pending) && Recorded(s.log, x) && caught
    case Announced(x, a) => !x.isCall && Bound(s, x, a, Pending) && caught
    case CallAnnounced(x) => x.isCall && Unused(s, x) && caught
    case CallInserted(x, a) => x.isCall && Bound(s, x, a, Pending) && caught
    case CallStored(x, a) => Bound(s, x, a, Pending) && caught
    case GrantSaved(x, a) => Bound(s, x, a, Granted) && !WasExecuted(s, x.id) && Recorded(s.log, x)
    case GrantHalf(x, a) =>
      && Bound(s, x, a, Granted) && !WasExecuted(s, x.id) && Recorded(s.log, x)
      && (x.isCall ==> caught && Has(s.log, ApprovalGranted(a)))
    case GrantDone(x, a) =>
      Bound(s, x, a, Granted) && !WasExecuted(s, x.id) && Recorded(s.log, x) && caught && Has(s.log, ApprovalGranted(a))
    case ReadyToStart(x, a) =>
      Bound(s, x, a, Granted) && !WasExecuted(s, x.id) && Recorded(s.log, x) && caught && Has(s.log, ApprovalGranted(a))
    case Started(x, a) => Bound(s, x, a, Granted) && !WasExecuted(s, x.id) && Recorded(s.log, x) && caught
    case Executed(x, _) => Recorded(s.log, x) && caught
    case Observed(x, _) => Recorded(s.log, x) && caught
    case DenySaved(_, _, to) => to != Pending
    case DenyRemoved(_, to) => to != Pending
    case Finishing => !Extract(s.log)
    case _ => true
  }

  ghost predicate MemoryOk(s: System, m: Memory) {
    && m.next <= |s.log| + 1
    && (m.unsaved ==> m.next == |s.log| + 1)
    && m.verification == Extract(s.log)
    && PcOk(s, m)
  }

  ghost predicate Safe(s: System) {
    Base(s) && (s.memory.Some? ==> MemoryOk(s, s.memory.value))
  }

  // ---- The log under appending -----------------------------------------------------------------

  lemma HasAppend(log: seq<Entry>, e: Entry, event: Event)
    ensures Has(log + [e], event) <==> Has(log, event) || e.event == event
  {
    var more := log + [e];
    if Has(log, event) {
      var i :| 0 <= i < |log| && log[i].event == event;
      assert more[i].event == event;
    }
    if e.event == event {
      assert more[|log|].event == event;
    }
  }

  lemma ReadAppend(log: seq<Entry>, e: Entry, id: Id)
    ensures (log + [e])[..|log|] == log
    ensures !(e.event.CommandProposed? && e.event.commandId == id) ==>
      MutabilityIn(log + [e], id) == MutabilityIn(log, id) && TextIn(log + [e], id) == TextIn(log, id)
    ensures !e.event.CommandCompleted? && !e.event.CommandFailed? ==> Extract(log + [e]) == Extract(log)
  {
  }

  lemma RecordedAppend(log: seq<Entry>, e: Entry, x: Action)
    requires Recorded(log, x)
    requires e.event.CommandProposed? ==> e.event.commandId != x.id
    ensures Recorded(log + [e], x)
  {
  }

  lemma StartsGrantedAppend(log: seq<Entry>, e: Entry, approvals: map<Id, Request>, a: Id)
    requires StartsGranted(log, approvals)
    requires e.event.CommandStarted? ==> GrantedBefore(log, approvals, |log|, e.event.commandId, a)
    ensures StartsGranted(log + [e], approvals)
  {
    var more := log + [e];
    forall j | 0 <= j < |more| && more[j].event.CommandStarted?
      ensures exists b :: GrantedBefore(more, approvals, j, more[j].event.commandId, b)
    {
      assert more[..j] == log[..j];
      if j < |log| {
        var b :| GrantedBefore(log, approvals, j, log[j].event.commandId, b);
        assert GrantedBefore(more, approvals, j, more[j].event.commandId, b);
      } else {
        assert GrantedBefore(more, approvals, j, more[j].event.commandId, a);
      }
    }
  }

  lemma CompletionsAppend(log: seq<Entry>, e: Entry)
    requires CompletionsVerified(log) && (e.event.RunCompleted? ==> !Extract(log))
    ensures CompletionsVerified(log + [e])
  {
    var more := log + [e];
    forall j | 0 <= j < |more| && more[j].event.RunCompleted? ensures !Extract(more[..j]) {
      assert more[..j] == log[..j];
      assert log[..|log|] == log;
    }
  }

  /** What an event must satisfy to be logged. */
  ghost predicate Loggable(s: System, event: Event, a: Id) {
    && (event.CommandProposed? ==> event.commandId !in s.pending)
    && (event.CommandStarted? ==> GrantedBefore(s.log, s.approvals, |s.log|, event.commandId, a))
    && (event.RunCompleted? ==> !Extract(s.log))
  }

  ghost predicate SameTables(s: System, t: System) {
    t.approvals == s.approvals && t.pending == s.pending && t.executed == s.executed && t.supply == s.supply
  }

  ghost predicate SameRest(s: System, t: System) {
    t.row == s.row && SameTables(s, t)
  }

  /** A logged event keeps everything that does not depend on the method in progress. */
  lemma AppendKeepsBase(s: System, t: System, event: Event, a: Id)
    requires Base(s) && Loggable(s, event, a) && SameRest(s, t)
    requires t.log == s.log + [Entry(|s.log| + 1, event)]
    ensures Base(t)
  {
    hide StartsGranted, CompletionsVerified, Recorded, Extract, GrantedBefore, Authorised, WasExecuted;
    var e := Entry(|s.log| + 1, event);
    StartsGrantedAppend(s.log, e, s.approvals, a);
    CompletionsAppend(s.log, e);
    forall id | id in t.pending ensures Recorded(t.log, t.pending[id]) {
      RecordedAppend(s.log, e, s.pending[id]);
    }
    SameExecutions(s, t);
  }

  lemma SameExecutions(s: System, t: System)
    requires Executions(s) && t.approvals == s.approvals && t.executed == s.executed
    ensures Executions(t)
  {
  }

  lemma LastIsCount(log: seq<Entry>)
    requires Numbered(log)
    ensures LastSequence(log) == |log|
  {
  }

  /** An emission either appends with the next number or is refused without a trace on disk. */
  lemma EmitCases(s: System, m: Memory, event: Event, pc: Pc)
    requires Numbered(s.log) && m.next <= |s.log| + 1
    ensures var t := Emit(s, m, event, pc);
      && SameRest(s, t)
      && (m.next <= |s.log| ==> t.log == s.log && t.memory == Some(m.(next := m.next + 1, pc := Idle)))
      && (m.next == |s.log| + 1 ==>
           && t.log == s.log + [Entry(|s.log| + 1, event)]
           && t.memory == Some(m.(next := m.next + 1, unsaved := true, pc := pc)))
  {
  }

  /** An emission keeps the invariant if the event may be logged and the method may go on after it. */
  lemma EmitKeeps(s: System, m: Memory, event: Event, pc: Pc, a: Id)
    requires Base(s) && m.next <= |s.log| + 1 && !m.unsaved
    requires Loggable(s, event, a)
    requires m.next <= |s.log| ==> m.verification == Extract(s.log)
    requires var log := s.log + [Entry(|s.log| + 1, event)];
      m.verification == Extract(log)
      && PcOk(s.(log := log), m.(next := |s.log| + 2, unsaved := true, pc := pc))
    ensures Safe(Emit(s, m, event, pc))
  {
    hide Loggable, PcOk, Extract, Ids, Executions, StartsGranted, CompletionsVerified, Recorded;
    var t := Emit(s, m, event, pc);
    EmitCases(s, m, event, pc);
    if m.next <= |s.log| {
      SameBase(s, t);
      IdleOk(t, t.memory.value);
    } else {
      AppendKeepsBase(s, t, event, a);
      var log := s.log + [Entry(|s.log| + 1, event)];
      PcSame(s.(log := log), t, t.memory.value);
    }
  }

  lemma SameBase(s: System, t: System)
    requires Base(s) && SameTables(s, t) && t.log == s.log && t.row.cursor <= |t.log| + 1
    ensures Base(t)
  {
  }

  lemma IdleOk(s: System, m: Memory)
    requires m.pc == Idle
    ensures PcOk(s, m)
  {
  }

  lemma PcSame(s: System, t: System, m: Memory)
    requires SameTables(s, t) && s.log == t.log && PcOk(s, m)
    ensures PcOk(t, m)
  {
  }

  // ---- Rows that change ------------------------------------------------------------------------

  /** Approvals are added or decided; bindings and decisions stay. */
  ghost predicate Develops(before: map<Id, Request>, after: map<Id, Request>) {
    forall b :: b in before ==>
      && b in after && after[b] == before[b].(state := after[b].state)
      && (before[b].state != Pending ==> after[b].state != Pending)
  }

  lemma DevelopKeepsStarts(log: seq<Entry>, before: map<Id, Request>, after: map<Id, Request>)
    requires StartsGranted(log, before) && Develops(before, after)
    ensures StartsGranted(log, after)
  {
    hide Has;
    forall j | 0 <= j < |log| && log[j].event.CommandStarted?
      ensures exists a :: GrantedBefore(log, after, j, log[j].event.commandId, a)
    {
      var a :| GrantedBefore(log, before, j, log[j].event.commandId, a);
      assert GrantedBefore(log, after, j, log[j].event.commandId, a);
    }
  }

  lemma DevelopKeepsAuthority(s: System, t: System, x: Action)
    requires Authorised(s, x) && Develops(s.approvals, t.approvals)
    ensures Authorised(t, x)
  {
  }

  /** Inserting the approval of an unused action. */
  lemma InsertKeepsBase(s: System, t: System, x: Action)
    requires Base(s) && Unused(s, x)
    requires t.log == s.log && t.pending == s.pending && t.executed == s.executed && t.row == s.row
    requires t.supply == s.supply + 1
    requires t.approvals == s.approvals[s.supply := Request(s.supply, x.id, x.isCall, x.text, Pending)]
    ensures Base(t) && Bound(t, x, s.supply, Pending)
  {
    hide StartsGranted, CompletionsVerified, Recorded, Authorised;
    DevelopKeepsStarts(s.log, s.approvals, t.approvals);
    forall i | 0 <= i < |t.executed| ensures Authorised(t, t.executed[i]) {
      DevelopKeepsAuthority(s, t, s.executed[i]);
    }
    forall id ensures WasExecuted(t, id) <==> WasExecuted(s, id) {}
  }

  /** Deciding an approval, whatever it was before. */
  lemma DecideKeepsBase(s: System, t: System, a: Id, to: RequestState)
    requires Base(s) && a in s.approvals && to != Pending
    requires t.log == s.log && t.pending == s.pending && t.executed == s.executed && t.row == s.row
    requires t.supply == s.supply && t.approvals == s.approvals[a := s.approvals[a].(state := to)]
    ensures Base(t)
  {
    hide StartsGranted, CompletionsVerified, Recorded, Authorised;
    DevelopKeepsStarts(s.log, s.approvals, t.approvals);
    forall i | 0 <= i < |t.executed| ensures Authorised(t, t.executed[i]) {
      DevelopKeepsAuthority(s, t, s.executed[i]);
    }
    forall id ensures WasExecuted(t, id) <==> WasExecuted(s, id) {}
  }

  lemma PendingKeepsBase(s: System, t: System)
    requires Base(s)
    requires t.log == s.log && t.approvals == s.approvals && t.executed == s.executed && t.row == s.row
    requires t.supply == s.supply
    requires forall id :: id in t.pending ==>
      (id in s.pending && t.pending[id] == s.pending[id])
      || (id < t.supply && t.pending[id].id == id && Recorded(t.log, t.pending[id]))
    ensures Base(t)
  {
  }

  /** What the method in progress needs survives a change of the pending rows it does not hold. */
  lemma PcOfTables(s: System, t: System, m: Memory)
    requires t.approvals == s.approvals && t.executed == s.executed && t.supply == s.supply && t.log == s.log
    requires PcOk(s, m)
    ensures PcOk(t, m)
  {
  }

  /** Executing the action of a granted approval, once. */
  lemma ExecuteKeepsBase(s: System, t: System, x: Action, a: Id)
    requires Base(s) && Bound(s, x, a, Granted) && !WasExecuted(s, x.id)
    requires t.log == s.log && t.approvals == s.approvals && t.pending == s.pending && t.row == s.row
    requires t.supply == s.supply && t.executed == s.executed + [x]
    ensures Base(t)
  {
    hide StartsGranted, CompletionsVerified, Recorded, GrantedBefore, Numbered;
    assert Executions(t) by {
      forall i | 0 <= i < |t.executed| ensures Authorised(t, t.executed[i]) {
        if i < |s.executed| {
          DevelopKeepsAuthority(s, t, s.executed[i]);
        } else {
          assert t.approvals[a] == Request(a, x.id, x.isCall, x.text, Granted);
        }
      }
      forall b | b in t.approvals && t.approvals[b].state == Pending ensures !WasExecuted(t, t.approvals[b].actionId) {
        assert !WasExecuted(s, s.approvals[b].actionId);
        assert b != a;
      }
    }
  }

  // ---- Replay after an outcome -------------------------------------------------------------------

  lemma OutcomeReplays(log: seq<Entry>, x: Action, success: bool, e: Entry)
    requires Recorded(log, x) && e.event == Outcome(x, success)
    ensures Extract(log + [e]) == NeedsVerification(x, success, Extract(log))
  {
  }

  // ---- Every step keeps it -------------------------------------------------------------------------

  /** A transition writes state and cursor and moves the method on. */
  lemma TransitKeeps(s: System, m: Memory, next: AgentState, pc: Pc)
    requires Safe(s) && s.memory == Some(m)
    requires PcOk(s, m.(state := next, pc := pc))
    ensures Safe(Transit(s, m, next, pc))
  {
    hide PcOk, Extract, Ids, Executions, StartsGranted, CompletionsVerified, Recorded;
    var t := Transit(s, m, next, pc);
    SameBase(s, t);
    PcSame(s, t, m.(state := next, pc := pc));
  }

  lemma EmitPlain(s: System, m: Memory, event: Event, pc: Pc)
    requires Safe(s) && s.memory == Some(m) && !m.unsaved
    requires !event.CommandProposed? && !event.CommandStarted? && !event.RunCompleted?
    requires !event.CommandCompleted? && !event.CommandFailed?
    requires var log := s.log + [Entry(|s.log| + 1, event)];
      PcOk(s.(log := log), m.(next := |s.log| + 2, unsaved := true, pc := pc))
    ensures Safe(Emit(s, m, event, pc))
  {
    hide PcOk, Extract, Ids, Executions, StartsGranted, CompletionsVerified, Recorded, GrantedBefore;
    ReadAppend(s.log, Entry(|s.log| + 1, event), 0);
    EmitKeeps(s, m, event, pc, 0);
  }

  lemma NoteKeeps(s: System, m: Memory, tag: string)
    requires Safe(s) && s.memory == Some(m) && !m.unsaved && (m.pc == Idle || m.pc == DenyLogged)
    ensures Safe(Emit(s, m, Other(tag), m.pc))
  {
    hide Base, Extract;
    EmitPlain(s, m, Other(tag), m.pc);
  }

  lemma ProposeKeeps(s: System, m: Memory, text: string, mutability: Mutability)
    requires Safe(s) && s.memory == Some(m) && !m.unsaved && m.pc == Idle
    ensures var x := Action(s.supply, false, text, mutability);
      Safe(Emit(s.(supply := s.supply + 1), m, CommandProposed(x.id, text, mutability), Proposed(x)))
  {
    hide StartsGranted, CompletionsVerified, Extract, Numbered;
    var x := Action(s.supply, false, text, mutability);
    var u := s.(supply := s.supply + 1);
    var event := CommandProposed(x.id, text, mutability);
    var e := Entry(|s.log| + 1, event);
    SupplyGrows(s, u, x.id);
    ReadAppend(s.log, e, x.id);
    assert (s.log + [e])[|s.log|] == e;
    assert Unused(u.(log := s.log + [e]), x);
    EmitKeeps(u, m, event, Proposed(x), 0);
  }

  lemma SupplyGrows(s: System, u: System, id: Id)
    requires Base(s) && u == s.(supply := s.supply + 1) && id == s.supply
    ensures Base(u) && id !in u.pending
    ensures forall a :: a in u.approvals ==> u.approvals[a].actionId != id
    ensures !WasExecuted(u, id)
    ensures forall log :: !WasExecuted(u.(log := log), id)
  {
  }

  lemma ProposeCallKeeps(s: System, m: Memory, text: string)
    requires Safe(s) && s.memory == Some(m) && !m.unsaved && m.pc == Idle
    ensures var x := Action(s.supply, true, text, ReadIntent);
      Safe(Emit(s.(supply := s.supply + 1), m, ToolApprovalRequired(x.id), CallAnnounced(x)))
  {
    hide StartsGranted, CompletionsVerified, Extract, Numbered, Recorded;
    var x := Action(s.supply, true, text, ReadIntent);
    var u := s.(supply := s.supply + 1);
    var event := ToolApprovalRequired(x.id);
    var e := Entry(|s.log| + 1, event);
    SupplyGrows(s, u, x.id);
    ReadAppend(s.log, e, x.id);
    assert Unused(u.(log := s.log + [e]), x);
    EmitKeeps(u, m, event, CallAnnounced(x), 0);
  }
}
