/**
 Facts gathered over the targets of a Fleet: merged one target at a time, all or nothing, within fixed
 bounds, and compared key by key across all bound targets.
 */
module FleetFacts {
  import opened Basics
  import opened FleetModel

  const MAX_FLEET_FACTS: nat := 512
  const MAX_FLEET_FACTS_PER_TARGET: nat := 96
  const MAX_FLEET_FACT_KEY_BYTES: nat := 192
  const MAX_FLEET_FACT_VALUE_CHARS: nat := 512
  const MAX_U64: nat := 0xFFFF_FFFF_FFFF_FFFF

  datatype Provenance = ToolObservation | OtherSource

  datatype TypedFact = TypedFact(
    key: string, value: string, sourceTool: Option<string>, toolCallId: Option<Id>, targetId: Option<Id>,
    observedAt: nat, ttl: nat, provenance: Provenance)

  datatype FactView = FactView(
    targetId: Id, role: Option<string>, key: string, value: string, evidenceId: Id, observedAt: nat, expiresAt: nat)

  datatype FactError = TargetMismatch | EvidenceRequired | LimitExceeded

  type FactMap = map<(Id, string), FactView>

  // ---- One fact --------------------------------------------------------------------------------

  function Take(s: string, n: nat): (r: string)
    ensures |r| <= n && r <= s
  {
    if |s| <= n then s else s[..n]
  }

  /** Why a fact may not enter the set of `target`, if it may not. */
  function Objection(target: Id, f: TypedFact): (e: Option<FactError>) {
    if f.targetId != Some(target) then Some(TargetMismatch)
    else if f.provenance != ToolObservation || f.sourceTool.None? || f.sourceTool.value == "" || f.toolCallId.None? then
      Some(EvidenceRequired)
    else if f.key == "" || Octets(f.key) > MAX_FLEET_FACT_KEY_BYTES then Some(LimitExceeded)
    else None
  }

  function ViewOf(binding: Target, f: TypedFact, clean: string -> string): (v: FactView)
    requires f.toolCallId.Some?
  {
    var expires := f.observedAt + f.ttl;
    FactView(binding.profileId, binding.role, f.key, Take(clean(f.value), MAX_FLEET_FACT_VALUE_CHARS),
      f.toolCallId.value, f.observedAt, if expires <= MAX_U64 then expires else MAX_U64)
  }

  /** What the fresh facts of one target amount to: the last one of each key. */
  ghost function Staged(binding: Target, source: seq<TypedFact>, current: TypedFact -> bool, clean: string -> string)
    : (m: FactMap)
  {
    if source == [] then map[]
    else
      var n := |source| - 1;
      var before := Staged(binding, source[..n], current, clean);
      var f := source[n];
      if current(f) && f.toolCallId.Some? then before[(binding.profileId, f.key) := ViewOf(binding, f, clean)]
      else before
  }

  ghost predicate Acceptable(target: Id, source: seq<TypedFact>, current: TypedFact -> bool) {
    forall i :: 0 <= i < |source| && current(source[i]) ==> Objection(target, source[i]).None?
  }

  /** The first fresh fact that may not enter, and why. */
  ghost predicate FirstRefused(
    target: Id, source: seq<TypedFact>, current: TypedFact -> bool, i: nat, e: FactError)
  {
    && i < |source| && current(source[i]) && Objection(target, source[i]) == Some(e)
    && forall j :: 0 <= j < i && current(source[j]) ==> Objection(target, source[j]).None?
  }

  // ---- Counting --------------------------------------------------------------------------------

  ghost function KeysOf(keys: set<(Id, string)>, target: Id): (r: set<(Id, string)>) {
    set key | key in keys && key.0 == target
  }

  ghost predicate Within(facts: FactMap) {
    |facts| <= MAX_FLEET_FACTS && forall target: Id :: |KeysOf(facts.Keys, target)| <= MAX_FLEET_FACTS_PER_TARGET
  }

  ghost predicate Bound(targets: seq<Target>, facts: FactMap) {
    forall key :: key in facts ==>
      && HasTarget(targets, key.0) && facts[key].targetId == key.0 && facts[key].key == key.1
      && 0 < Octets(key.1) <= MAX_FLEET_FACT_KEY_BYTES && |facts[key].value| <= MAX_FLEET_FACT_VALUE_CHARS
  }

  lemma DisjointCount<T>(a: set<T>, b: set<T>)
    requires a !! b
    ensures |a + b| == |a| + |b|
  {
  }

  /** Adding keys of one target adds to its count and to no other's. */
  lemma AddedCounts(keys: set<(Id, string)>, target: Id, added: set<(Id, string)>)
    requires added !! keys && forall key :: key in added ==> key.0 == target
    ensures |keys + added| == |keys| + |added|
    ensures |KeysOf(keys + added, target)| == |KeysOf(keys, target)| + |added|
    ensures forall other :: other != target ==> KeysOf(keys + added, other) == KeysOf(keys, other)
  {
    DisjointCount(keys, added);
    assert KeysOf(keys + added, target) == KeysOf(keys, target) + added;
    DisjointCount(KeysOf(keys, target), added);
    forall other | other != target ensures KeysOf(keys + added, other) == KeysOf(keys, other) {
    }
  }

  lemma {:induction false} StagedKeys(
    binding: Target, source: seq<TypedFact>, current: TypedFact -> bool, clean: string -> string, key: (Id, string))
    requires Acceptable(binding.profileId, source, current)
    requires key in Staged(binding, source, current, clean)
    ensures key.0 == binding.profileId && 0 < Octets(key.1) <= MAX_FLEET_FACT_KEY_BYTES
    ensures var v := Staged(binding, source, current, clean)[key];
      v.targetId == key.0 && v.key == key.1 && |v.value| <= MAX_FLEET_FACT_VALUE_CHARS
  {
    var n := |source| - 1;
    if key in Staged(binding, source[..n], current, clean) {
      StagedKeys(binding, source[..n], current, clean, key);
    }
  }

  /** The last fresh fact of its key. */
  ghost predicate LastFresh(source: seq<TypedFact>, current: TypedFact -> bool, i: nat) {
    && i < |source| && current(source[i])
    && forall j :: i < j < |source| && current(source[j]) ==> source[j].key != source[i].key
  }

  /**
   The view shows the fact for its target: its value cut to 512 characters, the call it was observed by, and
   an expiry that saturates at the largest 64-bit number.
   */
  ghost predicate Shows(v: FactView, binding: Target, f: TypedFact, clean: string -> string) {
    && v.targetId == binding.profileId && v.role == binding.role && v.key == f.key
    && v.value <= clean(f.value)
    && |v.value| == (if |clean(f.value)| <= 512 then |clean(f.value)| else 512)
    && f.toolCallId == Some(v.evidenceId)
    && v.observedAt == f.observedAt
    && v.expiresAt == (if f.observedAt + f.ttl <= 0xFFFF_FFFF_FFFF_FFFF then f.observedAt + f.ttl
                       else 0xFFFF_FFFF_FFFF_FFFF)
  }

  /** The last fresh fact of every key is staged under it. */
  lemma {:induction false} StagedIsLast(
    binding: Target, source: seq<TypedFact>, current: TypedFact -> bool, clean: string -> string, i: nat)
    requires Acceptable(binding.profileId, source, current) && LastFresh(source, current, i)
    ensures var m := Staged(binding, source, current, clean);
      && (binding.profileId, source[i].key) in m
      && Shows(m[(binding.profileId, source[i].key)], binding, source[i], clean)
  {
    hide Shows, ViewOf;
    var n := |source| - 1;
    if i < n {
      assert LastFresh(source[..n], current, i);
      StagedIsLast(binding, source[..n], current, clean, i);
    } else {
      assert Objection(binding.profileId, source[i]).None?;
      ViewShows(binding, source[i], clean);
    }
  }

  lemma ViewShows(binding: Target, f: TypedFact, clean: string -> string)
    requires f.toolCallId.Some?
    ensures Shows(ViewOf(binding, f, clean), binding, f, clean)
  {
  }

  /** And nothing else is staged. */
  lemma {:induction false} StagedOnlyLast(
    binding: Target, source: seq<TypedFact>, current: TypedFact -> bool, clean: string -> string, key: (Id, string))
    returns (i: nat)
    requires key in Staged(binding, source, current, clean)
    ensures LastFresh(source, current, i) && key == (binding.profileId, source[i].key)
  {
    hide ViewOf;
    var n := |source| - 1;
    var f := source[n];
    if current(f) && f.toolCallId.Some? && key == (binding.profileId, f.key) {
      i := n;
    } else {
      i := StagedOnlyLast(binding, source[..n], current, clean, key);
      if current(f) && f.key == source[i].key {
        i := n;
      }
    }
  }

  /** A fact may enter exactly if it was observed by a tool call on the target under a key of 1 to 192 octets. */
  lemma ObjectionIff(target: Id, f: TypedFact)
    ensures Objection(target, f).None? <==>
      && f.targetId == Some(target) && f.provenance == ToolObservation
      && f.sourceTool.Some? && f.sourceTool.value != "" && f.toolCallId.Some?
      && f.key != "" && Octets(f.key) <= 192
    ensures f.targetId != Some(target) ==> Objection(target, f) == Some(TargetMismatch)
    ensures Objection(target, f) == Some(LimitExceeded) ==> f.key == "" || Octets(f.key) > 192
    ensures Objection(target, f) == Some(EvidenceRequired) ==>
      f.provenance != ToolObservation || f.sourceTool.None? || f.sourceTool == Some("") || f.toolCallId.None?
  {
  }

  // ---- Comparing -------------------------------------------------------------------------------

  datatype Kind = Role | Version | Service | ConfigurationDigest

  datatype Status = Uniform | Divergent | Missing

  datatype ComparisonValue = ComparisonValue(
    targetId: Id, role: Option<string>, value: Option<string>, evidenceId: Option<Id>)

  datatype Comparison = Comparison(kind: Kind, key: string, status: Status, rows: seq<ComparisonValue>)

  predicate StartsWith(s: string, prefix: string) {
    prefix <= s
  }

  predicate EndsWith(s: string, suffix: string) {
    |suffix| <= |s| && s[|s| - |suffix|..] == suffix
  }

  function KindOf(key: string): (k: Option<Kind>) {
    if key == "os" || key == "kernel" || EndsWith(key, ".version") then Some(Version)
    else if StartsWith(key, "service.") && EndsWith(key, ".status") then Some(Service)
    else if EndsWith(key, ".config_digest") then Some(ConfigurationDigest)
    else None
  }

  /** Which keys are compared, and as what. */
  lemma KindOfIff(key: string)
    ensures KindOf(key) == Some(Version) <==>
      key == "os" || key == "kernel" || exists stem :: key == stem + ".version"
    ensures KindOf(key) == Some(Service) <==>
      (exists stem :: key == stem + ".status") && exists rest :: key == "service." + rest
    ensures KindOf(key) == Some(ConfigurationDigest) <==> exists stem :: key == stem + ".config_digest"
    ensures KindOf(key) != Some(Role)
  {
    EndsWithIff(key, ".version");
    EndsWithIff(key, ".status");
    EndsWithIff(key, ".config_digest");
    if StartsWith(key, "service.") {
      assert key == "service." + key[|"service."|..];
    }
    SuffixesDiffer(key);
  }

  lemma EndsWithIff(s: string, suffix: string)
    ensures EndsWith(s, suffix) <==> exists stem :: s == stem + suffix
  {
    if EndsWith(s, suffix) {
      assert s == s[..|s| - |suffix|] + suffix;
    }
  }

  lemma SuffixesDiffer(key: string)
    ensures EndsWith(key, ".version") ==> key[|key| - 1] == 'n'
    ensures EndsWith(key, ".status") ==> key[|key| - 1] == 's'
    ensures EndsWith(key, ".config_digest") ==> key[|key| - 1] == 't'
  {
  }

  /** Lexicographic order of keys. */
  predicate Before(a: string, b: string) {
    b != [] && (a == [] || a[0] < b[0] || (a[0] == b[0] && Before(a[1..], b[1..])))
  }

  lemma {:induction false} BeforeTotal(a: string, b: string)
    ensures a == b || Before(a, b) || Before(b, a)
  {
    if a != [] && b != [] && a[0] == b[0] {
      BeforeTotal(a[1..], b[1..]);
      assert a == [a[0]] + a[1..] && b == [b[0]] + b[1..];
    }
  }

  lemma {:induction false} BeforeTransitive(a: string, b: string, c: string)
    requires Before(a, b) && Before(b, c)
    ensures Before(a, c)
  {
    if a != [] && a[0] == b[0] == c[0] {
      BeforeTransitive(a[1..], b[1..], c[1..]);
    }
  }

  ghost predicate Rising(keys: seq<string>) {
    forall i, j :: 0 <= i < j < |keys| ==> Before(keys[i], keys[j])
  }

  /** Inserts a key into a rising list; a key already there is not repeated. */
  method InsertKey(keys: seq<string>, key: string) returns (r: seq<string>)
    requires Rising(keys)
    ensures Rising(r) && forall x :: x in r <==> x in keys || x == key
  {
    var i := 0;
    while i < |keys| && Before(keys[i], key)
      invariant 0 <= i <= |keys|
      invariant forall j :: 0 <= j < i ==> Before(keys[j], key)
    {
      i := i + 1;
    }
    if i < |keys| && keys[i] == key {
      return keys;
    }
    forall j | i <= j < |keys| ensures Before(key, keys[j]) {
      BeforeTotal(keys[i], key);
      if j > i {
        BeforeTransitive(key, keys[i], keys[j]);
      }
    }
    r := keys[..i] + [key] + keys[i..];
    assert keys == keys[..i] + keys[i..];
  }

  /** Missing if some target lacks the value, uniform if all have the same, divergent otherwise. */
  ghost predicate StatusOk(rows: seq<ComparisonValue>, status: Status) {
    && (status == Missing <==> exists i :: 0 <= i < |rows| && rows[i].value.None?)
    && (status == Uniform <==>
         forall i :: 0 <= i < |rows| ==> rows[i].value.Some? && rows[i].value == rows[0].value)
  }

  method ComparisonStatus(rows: seq<ComparisonValue>) returns (status: Status)
    ensures StatusOk(rows, status)
  {
    for i := 0 to |rows|
      invariant forall j :: 0 <= j < i ==> rows[j].value.Some?
    {
      if rows[i].value.None? {
        return Missing;
      }
    }
    status := Uniform;
    for i := 0 to |rows|
      invariant status == Uniform ==> forall j :: 0 <= j < i ==> rows[j].value == rows[0].value
      invariant status == Uniform || (status == Divergent && exists j :: 0 <= j < i && rows[j].value != rows[0].value)
    {
      if rows[i].value != rows[0].value {
        status := Divergent;
      }
    }
  }

  /** The row of one target in the comparison of `key`. */
  function RowOf(binding: Target, live: FactMap, key: string): (row: ComparisonValue) {
    var at := (binding.profileId, key);
    if at in live then ComparisonValue(binding.profileId, binding.role, Some(live[at].value), Some(live[at].evidenceId))
    else ComparisonValue(binding.profileId, binding.role, None, None)
  }

  /** A row names its target and shows what is live of it under the key, with the evidence, or that nothing is. */
  lemma RowShows(binding: Target, live: FactMap, key: string)
    ensures var row := RowOf(binding, live, key);
      && row.targetId == binding.profileId && row.role == binding.role
      && (row.value.Some? <==> (binding.profileId, key) in live) && (row.evidenceId.Some? <==> row.value.Some?)
      && ((binding.profileId, key) in live ==>
           && row.value == Some(live[(binding.profileId, key)].value)
           && row.evidenceId == Some(live[(binding.profileId, key)].evidenceId))
  {
  }

  ghost predicate Unexpired(facts: FactMap, live: FactMap, now: nat) {
    && (forall key :: key in live <==> key in facts && facts[key].expiresAt > now)
    && (forall key :: key in live ==> live[key] == facts[key])
  }

  ghost predicate Comparable(live: FactMap, key: string) {
    KindOf(key).Some? && exists target: Id :: (target, key) in live
  }

  // ---- The set ---------------------------------------------------------------------------------

  class FleetFactSet {
    const targets: seq<Target>
    var facts: FactMap

    ghost predicate Valid()
      reads this
    {
      Within(facts) && Bound(targets, facts)
    }

    constructor (targets: seq<Target>)
      ensures Valid() && facts == map[] && this.targets == targets
    {
      this.targets := targets;
      facts := map[];
      new;
      forall target: Id ensures KeysOf(facts.Keys, target) == {} {}
    }

    method FindBinding(target: Id) returns (r: Option<Target>)
      ensures r.Some? <==> HasTarget(targets, target)
      ensures r.Some? ==> r.value in targets && r.value.profileId == target
    {
      for i := 0 to |targets|
        invariant forall j :: 0 <= j < i ==> targets[j].profileId != target
      {
        if targets[i].profileId == target {
          return Some(targets[i]);
        }
      }
      r := None;
    }

    /** Stages every fresh fact, or stops at the first one that may not enter. */
    method Stage(binding: Target, source: seq<TypedFact>, current: TypedFact -> bool, clean: string -> string)
      returns (r: Result<FactMap, FactError>)
      ensures r.Ok? <==> Acceptable(binding.profileId, source, current)
      ensures r.Ok? ==> r.value == Staged(binding, source, current, clean)
      ensures r.Err? ==> exists i :: 0 <= i < |source| && FirstRefused(binding.profileId, source, current, i, r.error)
    {
      var staged: FactMap := map[];
      for i := 0 to |source|
        invariant Acceptable(binding.profileId, source[..i], current)
        invariant staged == Staged(binding, source[..i], current, clean)
      {
        assert source[..i + 1][..i] == source[..i];
        var f := source[i];
        if current(f) {
          var objection := Objection(binding.profileId, f);
          if objection.Some? {
            assert forall j :: 0 <= j < i ==> source[..i][j] == source[j];
            assert FirstRefused(binding.profileId, source, current, i, objection.value);
            return Err(objection.value);
          }
          staged := staged[(binding.profileId, f.key) := ViewOf(binding, f, clean)];
        }
      }
      assert source[..|source|] == source;
      r := Ok(staged);
    }

    /** All of a target's fresh facts enter, or none; the bounds hold either way. */
    method Merge(target: Id, source: seq<TypedFact>, current: TypedFact -> bool, clean: string -> string)
      returns (r: Result<nat, FactError>, ghost binding: Option<Target>)
      requires Valid()
      modifies this
      ensures Valid()
      ensures binding.Some? <==> HasTarget(targets, target)
      ensures binding.Some? ==> binding.value in targets && binding.value.profileId == target
      ensures r.Err? ==> facts == old(facts)
      ensures r.Ok? <==>
        && binding.Some? && Acceptable(target, source, current)
        && Within(old(facts) + Staged(binding.value, source, current, clean))
      ensures r.Ok? ==>
        && facts == old(facts) + Staged(binding.value, source, current, clean)
        && r.value == |Staged(binding.value, source, current, clean)|
      ensures binding.None? ==> r == Err(TargetMismatch)
      ensures r.Err? && binding.Some? && Acceptable(target, source, current) ==> r.error == LimitExceeded
      ensures r.Err? && binding.Some? && !Acceptable(target, source, current) ==>
        exists i :: 0 <= i < |source| && FirstRefused(target, source, current, i, r.error)
    {
      hide Acceptable, Staged, Within, Bound, Objection, HasTarget, FirstRefused;
      var found := FindBinding(target);
      binding := found;
      if found.None? {
        return Err(TargetMismatch), binding;
      }
      var staged := Stage(found.value, source, current, clean);
      if staged.Err? {
        return Err(staged.error), binding;
      }
      forall key | key in staged.value ensures key.0 == target {
        StagedKeys(found.value, source, current, clean, key);
      }
      var newKeys := staged.value.Keys - facts.Keys;
      var existing := set key | key in facts.Keys && key.0 == target;
      assert existing == KeysOf(facts.Keys, target);
      MergedWithin(facts, staged.value, target, newKeys);
      if |facts| + |newKeys| > MAX_FLEET_FACTS || |existing| + |newKeys| > MAX_FLEET_FACTS_PER_TARGET {
        return Err(LimitExceeded), binding;
      }
      MergedBound(targets, facts, found.value, source, current, clean);
      facts := facts + staged.value;
      r := Ok(|staged.value|);
    }

    /** The roles of the bound targets, compared like any other value. */
    method RoleComparison() returns (c: Comparison)
      ensures c.kind == Role && c.key == "fleet.role" && |c.rows| == |targets| && StatusOk(c.rows, c.status)
      ensures forall j :: 0 <= j < |targets| ==>
        c.rows[j] == ComparisonValue(targets[j].profileId, targets[j].role, targets[j].role, None)
    {
      var rows := seq(|targets|, j requires 0 <= j < |targets| =>
        ComparisonValue(targets[j].profileId, targets[j].role, targets[j].role, None));
      var status := ComparisonStatus(rows);
      c := Comparison(Role, "fleet.role", status, rows);
    }

    /**
     The live facts, the comparison of roles, and one comparison per live comparable key, each with one
     row per bound target.
     */
    method View(now: nat)
      returns (live: FactMap, roles: Comparison, comparisons: seq<Comparison>, ghost keys: seq<string>)
      ensures Unexpired(facts, live, now)
      ensures roles.kind == Role && roles.key == "fleet.role" && |roles.rows| == |targets|
      ensures StatusOk(roles.rows, roles.status)
      ensures forall j :: 0 <= j < |targets| ==>
        roles.rows[j] == ComparisonValue(targets[j].profileId, targets[j].role, targets[j].role, None)
      ensures Rising(keys) && forall key :: key in keys <==> Comparable(live, key)
      ensures |comparisons| == |keys|
      ensures forall i :: 0 <= i < |keys| ==>
        && comparisons[i].key == keys[i] && KindOf(keys[i]) == Some(comparisons[i].kind)
        && |comparisons[i].rows| == |targets|
        && (forall j :: 0 <= j < |targets| ==> comparisons[i].rows[j] == RowOf(targets[j], live, keys[i]))
        && StatusOk(comparisons[i].rows, comparisons[i].status)
    {
      live := map key | key in facts && facts[key].expiresAt > now :: facts[key];
      roles := RoleComparison();
      var sorted := ComparableKeys(live);
      keys := sorted;
      comparisons := [];
      for i := 0 to |sorted|
        invariant |comparisons| == i
        invariant forall k :: 0 <= k < i ==>
          && comparisons[k].key == keys[k] && KindOf(keys[k]) == Some(comparisons[k].kind)
          && |comparisons[k].rows| == |targets|
          && (forall j :: 0 <= j < |targets| ==> comparisons[k].rows[j] == RowOf(targets[j], live, keys[k]))
          && StatusOk(comparisons[k].rows, comparisons[k].status)
      {
        assert Comparable(live, sorted[i]);
        var comparison := Compare(live, sorted[i]);
        comparisons := comparisons + [comparison];
      }
    }

    method Compare(live: FactMap, key: string) returns (c: Comparison)
      requires KindOf(key).Some?
      ensures c.key == key && KindOf(key) == Some(c.kind) && |c.rows| == |targets|
      ensures forall j :: 0 <= j < |targets| ==> c.rows[j] == RowOf(targets[j], live, key)
      ensures StatusOk(c.rows, c.status)
    {
      var rows := seq(|targets|, j requires 0 <= j < |targets| => RowOf(targets[j], live, key));
      var status := ComparisonStatus(rows);
      c := Comparison(KindOf(key).value, key, status, rows);
    }

    /** The comparable keys of the live facts, sorted, each once. */
    method ComparableKeys(live: FactMap) returns (keys: seq<string>)
      ensures Rising(keys) && forall key :: key in keys <==> Comparable(live, key)
    {
      hide KindOf, Rising;
      keys := [];
      NoKeys();
      var left := live.Keys;
      while left != {}
        invariant left <= live.Keys && Rising(keys)
        invariant forall key :: key in keys <==>
          KindOf(key).Some? && exists target: Id :: (target, key) in live.Keys - left
        decreases |left|
      {
        var at :| at in left;
        ghost var before := left;
        left := left - {at};
        if KindOf(at.1).Some? {
          var more := InsertKey(keys, at.1);
          forall key
            ensures key in more <==> KindOf(key).Some? && exists target: Id :: (target, key) in live.Keys - left
          {
            OneLess(live.Keys, before, at, key);
          }
          keys := more;
        } else {
          forall key
            ensures key in keys <==> KindOf(key).Some? && exists target: Id :: (target, key) in live.Keys - left
          {
            OneLess(live.Keys, before, at, key);
          }
        }
      }
    }
  }

  lemma NoKeys()
    ensures Rising([])
  {
  }

  lemma OneLess(all: set<(Id, string)>, left: set<(Id, string)>, at: (Id, string), key: string)
    requires left <= all && at in left
    ensures (exists target: Id :: (target, key) in all - (left - {at})) <==>
      (exists target: Id :: (target, key) in all - left) || key == at.1
  {
  }

  lemma MergedWithin(facts: FactMap, staged: FactMap, target: Id, added: set<(Id, string)>)
    requires Within(facts) && forall key :: key in staged ==> key.0 == target
    requires added == staged.Keys - facts.Keys
    ensures Within(facts + staged) <==>
      |facts| + |added| <= MAX_FLEET_FACTS && |KeysOf(facts.Keys, target)| + |added| <= MAX_FLEET_FACTS_PER_TARGET
  {
    hide KeysOf;
    assert (facts + staged).Keys == facts.Keys + added;
    MapCount(facts);
    MapCount(facts + staged);
    AddedCounts(facts.Keys, target, added);
  }

  lemma MapCount(facts: FactMap)
    ensures |facts| == |facts.Keys|
  {
  }

  lemma MergedBound(
    targets: seq<Target>, facts: FactMap, binding: Target, source: seq<TypedFact>, current: TypedFact -> bool,
    clean: string -> string)
    requires Bound(targets, facts) && HasTarget(targets, binding.profileId)
    requires Acceptable(binding.profileId, source, current)
    ensures Bound(targets, facts + Staged(binding, source, current, clean))
  {
    hide Staged, Acceptable, HasTarget;
    var staged := Staged(binding, source, current, clean);
    forall key | key in staged
      ensures key.0 == binding.profileId && 0 < Octets(key.1) <= MAX_FLEET_FACT_KEY_BYTES
      ensures staged[key].targetId == key.0 && staged[key].key == key.1
        && |staged[key].value| <= MAX_FLEET_FACT_VALUE_CHARS
    {
      StagedKeys(binding, source, current, clean, key);
    }
  }
}
