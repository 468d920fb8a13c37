/** Dispatching a batch of reads: identical invocations execute once, yet every call gets its outcome. */
module ReadDispatch {
  import opened Basics

  /** A typed invocation; equal invocations render to equal keys and different ones do not. */
  datatype Call = Call(id: Id, invocation: nat)

  /** What one execution yields; `fromCache` when the observation cache had it. */
  datatype Reply = Reply(payload: string, fromCache: bool)

  datatype ToolOutcome = ToolOutcome(callId: Id, payload: string, fromCache: bool)

  /** Position of the first call of the batch with the same invocation as call `i`. */
  function First(calls: seq<Call>, i: nat): (j: nat)
    requires i < |calls|
    ensures j <= i && calls[j].invocation == calls[i].invocation
    ensures forall k :: 0 <= k < j ==> calls[k].invocation != calls[i].invocation
  {
    FirstFrom(calls, i, 0)
  }

  function FirstFrom(calls: seq<Call>, i: nat, from: nat): (j: nat)
    requires from <= i < |calls|
    ensures from <= j <= i && calls[j].invocation == calls[i].invocation
    ensures forall k :: from <= k < j ==> calls[k].invocation != calls[i].invocation
    decreases i - from
  {
    if calls[from].invocation == calls[i].invocation then from else FirstFrom(calls, i, from + 1)
  }

  /** What dispatching the calls one by one and remembering earlier answers would give call `i`. */
  function OneByOne(calls: seq<Call>, host: nat -> Reply, i: nat): (o: ToolOutcome)
    requires i < |calls|
  {
    var j := First(calls, i);
    ToolOutcome(calls[i].id, host(j).payload, if j == i then host(i).fromCache else true)
  }

  /** The positions whose call is executed: the first of every invocation, in call order. */
  ghost predicate Executed(calls: seq<Call>, unique: seq<nat>) {
    && (forall k :: 0 <= k < |unique| ==> unique[k] < |calls| && First(calls, unique[k]) == unique[k])
    && (forall k, l :: 0 <= k < l < |unique| ==> unique[k] < unique[l])
    && (forall i :: 0 <= i < |calls| ==> First(calls, i) in unique)
  }

  /** No invocation is executed twice, and none is left out. */
  lemma EachInvocationOnce(calls: seq<Call>, unique: seq<nat>, i: nat)
    requires Executed(calls, unique) && i < |calls|
    ensures First(calls, i) in unique
    ensures forall k :: 0 <= k < |unique| && calls[unique[k]].invocation == calls[i].invocation ==>
      unique[k] == First(calls, i)
  {
  }

  /** The map after `index` calls: every invocation seen, at its first position. */
  ghost predicate Indexed(calls: seq<Call>, index: nat, firstByKey: map<nat, nat>)
    requires index <= |calls|
  {
    && (forall key :: key in firstByKey ==>
         firstByKey[key] < index && calls[firstByKey[key]].invocation == key
         && First(calls, firstByKey[key]) == firstByKey[key])
    && (forall i :: 0 <= i < index ==> calls[i].invocation in firstByKey)
  }

  /** The two lists after `index` calls. */
  ghost predicate Split(calls: seq<Call>, index: nat, unique: seq<nat>, duplicates: seq<(nat, nat)>)
    requires index <= |calls|
  {
    && (forall i :: 0 <= i < index ==> First(calls, i) in unique)
    && (forall k :: 0 <= k < |unique| ==> unique[k] < index && First(calls, unique[k]) == unique[k])
    && (forall k, l :: 0 <= k < l < |unique| ==> unique[k] < unique[l])
    && (forall i :: 0 <= i < index && First(calls, i) != i ==> (i, First(calls, i)) in duplicates)
    && (forall d :: d in duplicates ==> d.0 < index && First(calls, d.0) != d.0 && d.1 == First(calls, d.0))
  }

  lemma NextFirst(calls: seq<Call>, index: nat, firstByKey: map<nat, nat>)
    requires index < |calls| && Indexed(calls, index, firstByKey)
    ensures var key := calls[index].invocation;
      First(calls, index) == if key in firstByKey then firstByKey[key] else index
    ensures var key := calls[index].invocation;
      Indexed(calls, index + 1, if key in firstByKey then firstByKey else firstByKey[key := index])
  {
  }

  lemma NextSplit(calls: seq<Call>, index: nat, unique: seq<nat>, duplicates: seq<(nat, nat)>)
    requires index < |calls| && Split(calls, index, unique, duplicates)
    ensures First(calls, index) == index ==> Split(calls, index + 1, unique + [index], duplicates)
    ensures First(calls, index) != index ==>
      Split(calls, index + 1, unique, duplicates + [(index, First(calls, index))])
  {
    hide First;
    if First(calls, index) == index {
      forall i | 0 <= i <= index ensures First(calls, i) in unique + [index] {
        assert i < index ==> First(calls, i) in unique;
      }
    } else {
      FirstTwice(calls, index);
      assert First(calls, First(calls, index)) in unique;
    }
  }

  lemma FirstTwice(calls: seq<Call>, i: nat)
    requires i < |calls|
    ensures First(calls, First(calls, i)) == First(calls, i)
  {
  }

  /** The first pass: which calls are first of their invocation, and which repeat an earlier one. */
  method Partition(calls: seq<Call>) returns (unique: seq<nat>, duplicates: seq<(nat, nat)>)
    ensures Executed(calls, unique)
    ensures forall i :: 0 <= i < |calls| && First(calls, i) != i ==> (i, First(calls, i)) in duplicates
    ensures forall d :: d in duplicates ==> d.0 < |calls| && First(calls, d.0) != d.0 && d.1 == First(calls, d.0)
  {
    hide Split, Indexed, First, Executed;
    var firstByKey: map<nat, nat> := map[];
    unique, duplicates := [], [];
    NothingSplit(calls);
    for index := 0 to |calls|
      invariant Indexed(calls, index, firstByKey) && Split(calls, index, unique, duplicates)
    {
      NextFirst(calls, index, firstByKey);
      NextSplit(calls, index, unique, duplicates);
      var key := calls[index].invocation;
      if key in firstByKey {
        IndexedBelow(calls, index, firstByKey, key);
        duplicates := duplicates + [(index, firstByKey[key])];
      } else {
        firstByKey := firstByKey[key := index];
        unique := unique + [index];
      }
    }
    AllSplit(calls, unique, duplicates);
  }

  lemma NothingSplit(calls: seq<Call>)
    ensures Indexed(calls, 0, map[]) && Split(calls, 0, [], [])
  {
  }

  lemma AllSplit(calls: seq<Call>, unique: seq<nat>, duplicates: seq<(nat, nat)>)
    requires Split(calls, |calls|, unique, duplicates)
    ensures Executed(calls, unique)
    ensures forall i :: 0 <= i < |calls| && First(calls, i) != i ==> (i, First(calls, i)) in duplicates
    ensures forall d :: d in duplicates ==> d.0 < |calls| && First(calls, d.0) != d.0 && d.1 == First(calls, d.0)
  {
  }

  lemma IndexedBelow(calls: seq<Call>, index: nat, firstByKey: map<nat, nat>, key: nat)
    requires index <= |calls| && Indexed(calls, index, firstByKey) && key in firstByKey
    ensures firstByKey[key] < index
  {
  }

  /** Call `i` has its outcome. */
  predicate Served(calls: seq<Call>, host: nat -> Reply, slots: seq<Option<ToolOutcome>>, i: nat) {
    i < |calls| == |slots| && slots[i] == Some(OneByOne(calls, host, i))
  }

  /** One outcome per call, in call order and under the call's id, as if dispatched one by one. */
  method ExecuteReads(calls: seq<Call>, host: nat -> Reply) returns (outcomes: seq<ToolOutcome>, ghost unique: seq<nat>)
    ensures Executed(calls, unique)
    ensures |outcomes| == |calls|
    ensures forall i :: 0 <= i < |calls| ==> outcomes[i] == OneByOne(calls, host, i)
    ensures forall i :: 0 <= i < |calls| ==> outcomes[i].callId == calls[i].id
    ensures forall i, j :: 0 <= j < i < |calls| && calls[j].invocation == calls[i].invocation ==>
      outcomes[i].payload == outcomes[j].payload && outcomes[i].fromCache
    ensures forall i :: 0 <= i < |calls| && (forall j :: 0 <= j < i ==> calls[j].invocation != calls[i].invocation) ==>
      outcomes[i].payload == host(i).payload && outcomes[i].fromCache == host(i).fromCache
  {
    hide First;
    var firsts, duplicates := Partition(calls);
    unique := firsts;
    var slots := new Option<ToolOutcome>[|calls|](_ => None);
    for k := 0 to |firsts|
      invariant forall l :: 0 <= l < k ==> Served(calls, host, slots[..], firsts[l])
    {
      var index := firsts[k];
      slots[index] := Some(ToolOutcome(calls[index].id, host(index).payload, host(index).fromCache));
    }
    for k := 0 to |duplicates|
      invariant forall l :: 0 <= l < |firsts| ==> Served(calls, host, slots[..], firsts[l])
      invariant forall l :: 0 <= l < k ==> Served(calls, host, slots[..], duplicates[l].0)
    {
      var (duplicate, source) := duplicates[k];
      DuplicateSource(calls, host, slots[..], firsts, duplicate);
      slots[duplicate] := Some(ToolOutcome(calls[duplicate].id, slots[source].value.payload, true));
    }
    forall i | 0 <= i < |calls| ensures Served(calls, host, slots[..], i) {
      assert First(calls, i) in firsts;
      assert First(calls, i) != i ==> (i, First(calls, i)) in duplicates;
    }
    outcomes := [];
    for i := 0 to |calls|
      invariant |outcomes| == i && forall j :: 0 <= j < i ==> outcomes[j] == OneByOne(calls, host, j)
    {
      assert Served(calls, host, slots[..], i);
      outcomes := outcomes + [slots[i].value];
    }
    SharedOutcomes(calls, host);
  }

  /** Calls of one invocation share the payload of the first, and all but the first say so. */
  lemma SharedOutcomes(calls: seq<Call>, host: nat -> Reply)
    ensures forall i, j :: 0 <= j < i < |calls| && calls[j].invocation == calls[i].invocation ==>
      OneByOne(calls, host, i).payload == OneByOne(calls, host, j).payload && OneByOne(calls, host, i).fromCache
    ensures forall i :: 0 <= i < |calls| && (forall j :: 0 <= j < i ==> calls[j].invocation != calls[i].invocation) ==>
      && OneByOne(calls, host, i).payload == host(i).payload
      && OneByOne(calls, host, i).fromCache == host(i).fromCache
  {
    hide FirstFrom;
    forall i, j | 0 <= j < i < |calls| && calls[j].invocation == calls[i].invocation
      ensures First(calls, i) == First(calls, j) && First(calls, i) != i
    {
    }
  }

  /** A repeated call finds the outcome of its first occurrence, and copying it touches no first. */
  lemma DuplicateSource(
    calls: seq<Call>, host: nat -> Reply, slots: seq<Option<ToolOutcome>>, firsts: seq<nat>, i: nat)
    requires Executed(calls, firsts) && i < |calls| && First(calls, i) != i
    requires forall l :: 0 <= l < |firsts| ==> Served(calls, host, slots, firsts[l])
    ensures Served(calls, host, slots, First(calls, i)) && First(calls, First(calls, i)) == First(calls, i)
    ensures i !in firsts
  {
  }
}
