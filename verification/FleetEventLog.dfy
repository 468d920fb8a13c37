/**
 The durable Fleet event table. It keeps only the newest 512 events of a run, yet behaves towards its
 writers and readers like an unbounded log: contiguous numbers, next number n + 1, readable suffixes.
 */
module FleetEventLog {
  import opened Basics
  import opened FleetModel

  const MAX_DURABLE_FLEET_EVENTS: nat := 512

  datatype EventKind =
    | DraftCreated | ApprovalRequired | ApprovalGranted | ApprovalRejected | ApprovalInvalidated
    | ChildClaimed | StateChanged | RecoveryInterrupted

  datatype FleetEvent = FleetEvent(
    fleetRunId: Id, sequence: nat, timestamp: nat, kind: EventKind, state: RunState,
    approvalId: Option<Id>, code: Option<string>)

  datatype SequenceError = SequenceInvalid(last: nat, attempted: nat)

  type Rows = map<(Id, nat), FleetEvent>

  /** How many of `n` events have been dropped. */
  function Dropped(n: nat): (d: nat) {
    if n <= MAX_DURABLE_FLEET_EVENTS then 0 else n - MAX_DURABLE_FLEET_EVENTS
  }

  /** The rows of `id` are exactly the newest events of the ideal log, each under its number. */
  ghost predicate Window(rows: Rows, id: Id, log: seq<FleetEvent>) {
    && (forall i :: 0 <= i < |log| ==> log[i].fleetRunId == id && log[i].sequence == i + 1)
    && (forall s :: (id, s) in rows <==> Dropped(|log|) < s <= |log|)
    && (forall s :: (id, s) in rows ==> rows[(id, s)] == log[s - 1])
  }

  ghost predicate LogOf(logs: map<Id, seq<FleetEvent>>, rows: Rows) {
    && (forall key :: key in rows ==> key.0 in logs)
    && (forall id :: id in logs ==> Window(rows, id, logs[id]))
  }

  ghost function Log(logs: map<Id, seq<FleetEvent>>, id: Id): (log: seq<FleetEvent>) {
    if id in logs then logs[id] else []
  }

  lemma WindowOf(logs: map<Id, seq<FleetEvent>>, rows: Rows, id: Id)
    requires LogOf(logs, rows)
    ensures Window(rows, id, Log(logs, id))
  {
  }

  /** Adding the next event and trimming keeps the window. */
  lemma TrimKeepsWindow(rows: Rows, more: Rows, id: Id, log: seq<FleetEvent>, event: FleetEvent)
    requires Window(rows, id, log)
    requires event.fleetRunId == id && event.sequence == |log| + 1
    requires forall s :: (id, s) in more <==>
      ((id, s) in rows || s == event.sequence) && !(s + MAX_DURABLE_FLEET_EVENTS <= event.sequence)
    requires forall s :: (id, s) in more ==>
      more[(id, s)] == if s == event.sequence then event else rows[(id, s)]
    ensures Window(more, id, log + [event])
  {
  }

  class EventTable {
    var rows: Rows
    /** The unbounded log the table stands for. */
    ghost var logs: map<Id, seq<FleetEvent>>

    ghost predicate Valid()
      reads this
    {
      LogOf(logs, rows)
    }

    constructor ()
      ensures Valid() && logs == map[]
    {
      rows, logs := map[], map[];
    }

    /** The largest number stored for the run, 0 when there is none. */
    method MaxSequence(id: Id) returns (last: nat)
      requires Valid()
      ensures last == |Log(logs, id)|
    {
      WindowOf(logs, rows, id);
      ghost var n := |Log(logs, id)|;
      last := 0;
      var left := rows.Keys;
      while left != {}
        invariant left <= rows.Keys
        invariant last == 0 || (id, last) in rows
        invariant forall s :: (id, s) in rows.Keys - left ==> s <= last
      {
        var key :| key in left;
        left := left - {key};
        if key.0 == id && key.1 > last {
          last := key.1;
        }
      }
      if n > 0 {
        assert (id, n) in rows.Keys - left;
      }
    }

    /** Accepts exactly the next number of the run; on success the ideal log grows by the event. */
    method Append(event: FleetEvent) returns (r: Result<(), SequenceError>)
      requires Valid()
      modifies this
      ensures Valid()
      ensures r.Ok? <==> event.sequence == |Log(old(logs), event.fleetRunId)| + 1
      ensures r.Ok? ==>
        logs == old(logs)[event.fleetRunId := Log(old(logs), event.fleetRunId) + [event]]
      ensures r.Err? ==> logs == old(logs) && rows == old(rows)
      ensures r.Err? ==> r.error == SequenceInvalid(|Log(old(logs), event.fleetRunId)|, event.sequence)
    {
      var id := event.fleetRunId;
      var last := MaxSequence(id);
      if last + 1 != event.sequence {
        return Err(SequenceInvalid(last, event.sequence));
      }
      WindowOf(logs, rows, id);
      ghost var before := rows;
      rows := rows[(id, event.sequence) := event];
      rows := map key | key in rows && !(key.0 == id && key.1 + MAX_DURABLE_FLEET_EVENTS <= event.sequence)
                :: rows[key];
      ghost var log := Log(logs, id);
      TrimKeepsWindow(before, rows, id, log, event);
      OthersKeepWindow(logs, before, rows, id);
      logs := logs[id := log + [event]];
      r := Ok(());
    }

    /** The events after `after`, in order: the part of the ideal log that is wanted and still kept. */
    method EventsAfter(id: Id, after: nat) returns (events: seq<FleetEvent>)
      requires Valid()
      ensures var log := Log(logs, id);
        var from := if after < Dropped(|log|) then Dropped(|log|) else after;
        events == if from < |log| then log[from..] else []
      ensures var log := Log(logs, id);
        forall i :: 0 <= i < |log| ==> (log[i] in events <==> after <= i && |log| <= i + 512)
    {
      WindowOf(logs, rows, id);
      ghost var log := Log(logs, id);
      var last := MaxSequence(id);
      ghost var from := if after < Dropped(|log|) then Dropped(|log|) else after;
      events := [];
      var s := 1;
      while s <= last
        invariant 1 <= s <= last + 1
        invariant events == if from < s - 1 then log[from..s - 1] else []
      {
        if (id, s) in rows && s > after {
          events := events + [rows[(id, s)]];
        }
        s := s + 1;
      }
      KeptAndWanted(log, from, events);
    }

    /** The number the service gives its next event. */
    method NextSequence(id: Id) returns (next: nat)
      requires Valid()
      ensures next == |Log(logs, id)| + 1
    {
      WindowOf(logs, rows, id);
      var events := EventsAfter(id, 0);
      next := if events == [] then 1 else events[|events| - 1].sequence + 1;
    }

    /** A transaction's events, numbered from the next number on: none is ever rejected. */
    method AppendNumbered(id: Id, drafts: seq<FleetEvent>) returns (written: seq<FleetEvent>)
      requires Valid()
      requires forall i :: 0 <= i < |drafts| ==> drafts[i].fleetRunId == id
      modifies this
      ensures Valid()
      ensures Log(logs, id) == Log(old(logs), id) + written
      ensures |written| == |drafts|
      ensures forall i :: 0 <= i < |drafts| ==>
        written[i] == drafts[i].(sequence := |Log(old(logs), id)| + 1 + i)
      ensures forall other :: other != id ==> Log(logs, other) == Log(old(logs), other)
    {
      var first := NextSequence(id);
      written := [];
      for i := 0 to |drafts|
        invariant Valid()
        invariant |written| == i
        invariant forall k :: 0 <= k < i ==> written[k] == drafts[k].(sequence := first + k)
        invariant Log(logs, id) == Log(old(logs), id) + written
        invariant forall other :: other != id ==> Log(logs, other) == Log(old(logs), other)
      {
        var event := drafts[i].(sequence := first + i);
        var appended := Append(event);
        assert appended.Ok?;
        written := written + [event];
      }
    }
  }

  lemma KeptAndWanted(log: seq<FleetEvent>, from: nat, events: seq<FleetEvent>)
    requires forall i :: 0 <= i < |log| ==> log[i].sequence == i + 1
    requires events == if from < |log| then log[from..] else []
    ensures forall i :: 0 <= i < |log| ==> (log[i] in events <==> from <= i)
  {
    forall i | 0 <= i < |log| ensures log[i] in events <==> from <= i {
      if from <= i {
        assert events[i - from] == log[i];
      }
    }
  }

  lemma OthersKeepWindow(logs: map<Id, seq<FleetEvent>>, rows: Rows, more: Rows, id: Id)
    requires LogOf(logs, rows)
    requires forall key: (Id, nat) | key.0 != id ::
      (key in more <==> key in rows) && (key in more ==> more[key] == rows[key])
    ensures forall other :: other in logs && other != id ==> Window(more, other, logs[other])
    ensures forall key: (Id, nat) :: key in more && key.0 != id ==> key.0 in logs
  {
  }
}
