/** The working facts of a run: a list kept as a map from (target, key) to the last observation. */
module Facts {
  import opened Basics

  datatype Fact = Fact(id: Id, key: string, value: string, targetId: Option<Id>, observedAt: nat)

  type FactKey = (Option<Id>, string)

  /** What a fact says: its value and when it was observed. */
  type Reading = (string, nat)

  function KeyOf(f: Fact): FactKey {
    (f.targetId, f.key)
  }

  function ReadingOf(f: Fact): Reading {
    (f.value, f.observedAt)
  }

  ghost predicate UniqueKeys(facts: seq<Fact>) {
    forall i, j :: 0 <= i < j < |facts| ==> KeyOf(facts[i]) != KeyOf(facts[j])
  }

  /** The map a list of facts stands for, later facts first. */
  ghost function Readings(facts: seq<Fact>): (m: map<FactKey, Reading>) {
    if facts == [] then map[]
    else
      var last := facts[|facts| - 1];
      Readings(facts[..|facts| - 1])[KeyOf(last) := ReadingOf(last)]
  }

  lemma {:induction false} ReadingAt(facts: seq<Fact>, i: nat)
    requires UniqueKeys(facts) && i < |facts|
    ensures KeyOf(facts[i]) in Readings(facts) && Readings(facts)[KeyOf(facts[i])] == ReadingOf(facts[i])
  {
    var n := |facts| - 1;
    if i < n {
      ReadingAt(facts[..n], i);
    }
  }

  lemma {:induction false} ReadingsKeys(facts: seq<Fact>, key: FactKey)
    ensures key in Readings(facts) <==> exists i :: 0 <= i < |facts| && KeyOf(facts[i]) == key
  {
    if facts != [] {
      ReadingsKeys(facts[..|facts| - 1], key);
    }
  }

  /** Replacing the fact of a key replaces the reading of that key and no other. */
  lemma ReadingsUpdate(facts: seq<Fact>, i: nat, f: Fact)
    requires UniqueKeys(facts) && i < |facts| && KeyOf(facts[i]) == KeyOf(f)
    ensures UniqueKeys(facts[i := f])
    ensures Readings(facts[i := f]) == Readings(facts)[KeyOf(f) := ReadingOf(f)]
  {
    var more := facts[i := f];
    forall key ensures key in Readings(more) <==> key in Readings(facts) {
      ReadingsKeys(more, key);
      ReadingsKeys(facts, key);
      if j :| 0 <= j < |facts| && KeyOf(facts[j]) == key {
        assert KeyOf(more[j]) == key;
      }
      if j :| 0 <= j < |more| && KeyOf(more[j]) == key {
        assert KeyOf(facts[j]) == key;
      }
    }
    ReadingAt(facts, i);
    forall key | key in Readings(more)
      ensures Readings(more)[key] == if key == KeyOf(f) then ReadingOf(f) else Readings(facts)[key]
    {
      ReadingsKeys(more, key);
      var j :| 0 <= j < |more| && KeyOf(more[j]) == key;
      ReadingAt(more, j);
      ReadingAt(facts, j);
    }
  }

  class WorkingFacts {
    var facts: seq<Fact>

    ghost predicate Valid()
      reads this
    {
      UniqueKeys(facts)
    }

    constructor ()
      ensures Valid() && facts == []
    {
      facts := [];
    }

    /** Position of the fact of a (target, key), or the length when there is none. */
    method Find(f: Fact) returns (i: nat)
      ensures i <= |facts| && (i < |facts| ==> KeyOf(facts[i]) == KeyOf(f))
      ensures i == |facts| ==> forall j :: 0 <= j < |facts| ==> KeyOf(facts[j]) != KeyOf(f)
    {
      i := 0;
      while i < |facts| && !(facts[i].key == f.key && facts[i].targetId == f.targetId)
        invariant 0 <= i <= |facts|
        invariant forall j :: 0 <= j < i ==> KeyOf(facts[j]) != KeyOf(f)
      {
        i := i + 1;
      }
    }

    /** Takes in one observation; `news` when it says something not already held. */
    method UpsertOne(f: Fact) returns (news: bool)
      requires Valid()
      modifies this
      ensures Valid()
      ensures Readings(facts) == Readings(old(facts))[KeyOf(f) := ReadingOf(f)]
      ensures news <==> !(KeyOf(f) in Readings(old(facts)) && Readings(old(facts))[KeyOf(f)] == ReadingOf(f))
    {
      var i := Find(f);
      ReadingsKeys(facts, KeyOf(f));
      if i < |facts| {
        ReadingAt(facts, i);
        news := facts[i].value != f.value || facts[i].observedAt != f.observedAt;
        if news {
          ReadingsUpdate(facts, i, f);
          facts := facts[i := f];
        }
      } else {
        news := true;
        assert (facts + [f])[..|facts|] == facts;
        facts := facts + [f];
      }
    }

    /**
     Takes in observations in order. Keys stay unique, and the readings are those of last write wins;
     `changed` names, in order, the incoming facts whose reading was not already held.
     */
    method UpsertMany(incoming: seq<Fact>) returns (changed: seq<string>)
      requires Valid()
      modifies this
      ensures Valid()
      ensures Readings(facts) == Readings(old(facts)) + Readings(incoming)
      ensures changed == Changes(old(facts), incoming)
    {
      hide UniqueKeys, Readings, Changes;
      ghost var before := facts;
      changed := [];
      NothingIncoming(before);
      for n := 0 to |incoming|
        invariant Valid()
        invariant Readings(facts) == Readings(old(facts)) + Readings(incoming[..n])
        invariant changed == Changes(old(facts), incoming[..n])
      {
        OneMore(before, incoming, n);
        var news := UpsertOne(incoming[n]);
        if news {
          changed := changed + [incoming[n].key];
        }
      }
      assert incoming[..|incoming|] == incoming;
    }

    /** Drops the facts of a target, keeping the rest in order; says how many went. */
    method InvalidateTarget(targetId: Id) returns (dropped: nat)
      requires Valid()
      modifies this
      ensures Valid()
      ensures forall key :: key in Readings(facts) <==> key in Readings(old(facts)) && key.0 != Some(targetId)
      ensures forall key :: key in Readings(facts) ==> Readings(facts)[key] == Readings(old(facts))[key]
      ensures forall f :: f in facts <==> f in old(facts) && f.targetId != Some(targetId)
      ensures dropped == |old(facts)| - |facts|
    {
      var before := facts;
      var kept: seq<Fact> := [];
      for i := 0 to |before|
        invariant |kept| <= i
        invariant forall j :: 0 <= j < |kept| ==> kept[j].targetId != Some(targetId)
        invariant forall j :: 0 <= j < |kept| ==> exists k :: 0 <= k < i && before[k] == kept[j]
        invariant forall k :: 0 <= k < i && before[k].targetId != Some(targetId) ==> before[k] in kept
        invariant UniqueKeys(kept)
      {
        if before[i].targetId != Some(targetId) {
          kept := kept + [before[i]];
        }
      }
      facts := kept;
      dropped := |before| - |facts|;
      KeptReadings(before, kept, targetId);
    }
  }

  /** The keys of the incoming facts that say something new, given what came before them. */
  ghost function Changes(facts: seq<Fact>, incoming: seq<Fact>): (keys: seq<string>) {
    if incoming == [] then []
    else
      var n := |incoming| - 1;
      var known := Readings(facts) + Readings(incoming[..n]);
      var f := incoming[n];
      Changes(facts, incoming[..n])
      + if KeyOf(f) in known && known[KeyOf(f)] == ReadingOf(f) then [] else [f.key]
  }

  /** The incoming fact at `i` says something that neither the list nor the facts before it say. */
  ghost predicate News(facts: seq<Fact>, incoming: seq<Fact>, i: nat)
    requires i < |incoming|
  {
    var known := Readings(facts) + Readings(incoming[..i]);
    !(KeyOf(incoming[i]) in known && known[KeyOf(incoming[i])] == ReadingOf(incoming[i]))
  }

  /** The keys are those of exactly the incoming facts that are news, in order; `at` says where each comes from. */
  ghost predicate NewsKeys(facts: seq<Fact>, incoming: seq<Fact>, keys: seq<string>, at: seq<nat>) {
    && |at| == |keys|
    && (forall m, n :: 0 <= m < n < |at| ==> at[m] < at[n])
    && (forall n :: 0 <= n < |at| ==>
         at[n] < |incoming| && News(facts, incoming, at[n]) && keys[n] == incoming[at[n]].key)
    && (forall i :: 0 <= i < |incoming| && News(facts, incoming, i) ==> i in at)
  }

  lemma NewsFront(facts: seq<Fact>, incoming: seq<Fact>, i: nat)
    requires i < |incoming| - 1
    ensures News(facts, incoming[..|incoming| - 1], i) <==> News(facts, incoming, i)
  {
    hide Readings;
    assert incoming[..|incoming| - 1][..i] == incoming[..i];
  }

  lemma NewsKeysNext(facts: seq<Fact>, incoming: seq<Fact>, keys: seq<string>, at: seq<nat>)
    requires incoming != [] && NewsKeys(facts, incoming[..|incoming| - 1], keys, at)
    ensures var n := |incoming| - 1;
      if News(facts, incoming, n) then NewsKeys(facts, incoming, keys + [incoming[n].key], at + [n])
      else NewsKeys(facts, incoming, keys, at)
  {
    hide News;
    var n := |incoming| - 1;
    forall i | 0 <= i < n ensures News(facts, incoming[..n], i) <==> News(facts, incoming, i) {
      NewsFront(facts, incoming, i);
    }
    var more := at + [n];
    assert forall i :: i in at ==> i in more;
    assert more[|at|] == n;
  }

  /** The changed keys are those of exactly the facts that are news, in order. */
  lemma {:induction false} ChangesAreNews(facts: seq<Fact>, incoming: seq<Fact>) returns (at: seq<nat>)
    ensures NewsKeys(facts, incoming, Changes(facts, incoming), at)
  {
    hide Readings;
    at := [];
    if incoming != [] {
      var n := |incoming| - 1;
      at := ChangesAreNews(facts, incoming[..n]);
      NewsKeysNext(facts, incoming, Changes(facts, incoming[..n]), at);
      if News(facts, incoming, n) {
        at := at + [n];
      } else {
        assert Changes(facts, incoming) == Changes(facts, incoming[..n]);
      }
    }
  }

  /** A list of any facts, repeated keys included, reads as the last fact of each key. */
  lemma {:induction false} ReadingIsLast(facts: seq<Fact>, i: nat)
    requires i < |facts| && forall j :: i < j < |facts| ==> KeyOf(facts[j]) != KeyOf(facts[i])
    ensures KeyOf(facts[i]) in Readings(facts) && Readings(facts)[KeyOf(facts[i])] == ReadingOf(facts[i])
  {
    var n := |facts| - 1;
    if i < n {
      ReadingIsLast(facts[..n], i);
    }
  }

  lemma NothingIncoming(facts: seq<Fact>)
    ensures Readings(facts) == Readings(facts) + Readings([]) && Changes(facts, []) == []
  {
  }

  lemma OneMore(facts: seq<Fact>, incoming: seq<Fact>, n: nat)
    requires n < |incoming|
    ensures var known := Readings(facts) + Readings(incoming[..n]);
      var f := incoming[n];
      && Readings(facts) + Readings(incoming[..n + 1]) == known[KeyOf(f) := ReadingOf(f)]
      && Changes(facts, incoming[..n + 1]) ==
           Changes(facts, incoming[..n]) + if KeyOf(f) in known && known[KeyOf(f)] == ReadingOf(f) then [] else [f.key]
  {
    assert incoming[..n + 1][..n] == incoming[..n];
  }

  lemma KeptReadings(before: seq<Fact>, kept: seq<Fact>, targetId: Id)
    requires UniqueKeys(before) && UniqueKeys(kept)
    requires forall j :: 0 <= j < |kept| ==> kept[j].targetId != Some(targetId) && kept[j] in before
    requires forall k :: 0 <= k < |before| && before[k].targetId != Some(targetId) ==> before[k] in kept
    ensures forall key :: key in Readings(kept) <==> key in Readings(before) && key.0 != Some(targetId)
    ensures forall key :: key in Readings(kept) ==> Readings(kept)[key] == Readings(before)[key]
  {
    forall key
      ensures key in Readings(kept) <==> key in Readings(before) && key.0 != Some(targetId)
      ensures key in Readings(kept) ==> Readings(kept)[key] == Readings(before)[key]
    {
      ReadingsKeys(kept, key);
      ReadingsKeys(before, key);
      if j :| 0 <= j < |kept| && KeyOf(kept[j]) == key {
        var k :| 0 <= k < |before| && before[k] == kept[j];
        ReadingAt(kept, j);
        ReadingAt(before, k);
      }
      if k :| 0 <= k < |before| && KeyOf(before[k]) == key && key.0 != Some(targetId) {
        var j :| 0 <= j < |kept| && kept[j] == before[k];
      }
    }
  }
}
