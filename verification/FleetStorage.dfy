/**
 The Fleet tables: writing a run replaces all its rows, loading reads them back in table order. What
 comes back is the run without its summaries, metadata only, its children sorted by key.
 */
module FleetStorage {
  import opened Basics
  import opened FleetModel
  import opened FleetDrafts

  datatype StoreError = StoreCorrupt | RunAlreadyExists | RunNotFound

  datatype ChildKey = ChildKey(run: Id, stage: Id, target: Id, attempt: nat)

  /** The columns of a run row. */
  datatype RunRow = RunRow(
    version: nat, state: RunState, production: bool, failurePolicy: FailurePolicy, graphDigest: Digest,
    recovery: RecoveryState, updatedAt: nat)

  /** Stage rows have no summary column. */
  datatype StageRow = StageRow(
    id: Id, targetIds: seq<Id>, dependsOn: seq<Id>, strategy: Strategy, concurrencyLimit: nat, state: StageState)

  datatype ChildRow = ChildRow(agentRunId: Option<Id>, state: StageState, errorCode: Option<string>)

  function RunRowOf(s: Fleet): RunRow {
    RunRow(s.version, s.state, s.production, s.failurePolicy, s.graphDigest, s.recovery, s.updatedAt)
  }

  function StageRowOf(st: Stage): StageRow {
    StageRow(st.id, st.targetIds, st.dependsOn, st.strategy, st.concurrencyLimit, st.state)
  }

  function StageFrom(row: StageRow): Stage {
    Stage(row.id, "", row.targetIds, row.dependsOn, row.strategy, row.concurrencyLimit, row.state)
  }

  function KeyIn(run: Id, c: Child): ChildKey {
    ChildKey(run, c.stageId, c.targetId, c.attempt)
  }

  function ChildRowOf(c: Child): ChildRow {
    ChildRow(c.agentRunId, c.state, c.errorCode)
  }

  function ChildFrom(key: ChildKey, row: ChildRow): Child {
    Child(key.stage, key.target, row.agentRunId, key.attempt, row.state, row.errorCode)
  }

  /** `ORDER BY stage_id, target_id, attempt` within one run. */
  predicate KeyLess(a: ChildKey, b: ChildKey) {
    || a.stage < b.stage
    || (a.stage == b.stage && (a.target < b.target || (a.target == b.target && a.attempt < b.attempt)))
  }

  predicate ChildLess(a: Child, b: Child) {
    KeyLess(KeyIn(0, a), KeyIn(0, b))
  }

  ghost predicate Sorted(children: seq<Child>) {
    forall i, j :: 0 <= i < j < |children| ==> ChildLess(children[i], children[j])
  }

  function Blanked(stages: seq<Stage>): (r: seq<Stage>)
    ensures |r| == |stages|
  {
    seq(|stages|, k requires 0 <= k < |stages| => stages[k].(summary := ""))
  }

  /** `l` is what the database gives back for `s`. */
  ghost predicate Restores(s: Fleet, l: Fleet) {
    && l == s.(stages := Blanked(s.stages), children := l.children, recovery := MetadataOnly)
    && multiset(l.children) == multiset(s.children)
    && Sorted(l.children)
  }

  // ---- The rows of one run ---------------------------------------------------------------------

  ghost predicate TargetRows(rows: map<(Id, nat), Target>, id: Id, targets: seq<Target>) {
    forall n: nat :: ((id, n) in rows <==> n < |targets|) && (n < |targets| ==> rows[(id, n)] == targets[n])
  }

  ghost predicate StageRows(rows: map<(Id, nat), StageRow>, id: Id, stages: seq<Stage>) {
    forall n: nat :: ((id, n) in rows <==> n < |stages|) && (n < |stages| ==> rows[(id, n)] == StageRowOf(stages[n]))
  }

  ghost predicate ChildRows(rows: map<ChildKey, ChildRow>, id: Id, children: seq<Child>) {
    && (forall i :: 0 <= i < |children| ==>
         KeyIn(id, children[i]) in rows && rows[KeyIn(id, children[i])] == ChildRowOf(children[i]))
    && (forall key :: key in rows && key.run == id ==> exists i :: 0 <= i < |children| && KeyIn(id, children[i]) == key)
  }

  lemma NotYetThere(rows: map<ChildKey, ChildRow>, id: Id, values: seq<Child>, i: nat)
    requires i < |values| && DistinctChildKeys(values) && ChildRows(rows, id, values[..i])
    ensures KeyIn(id, values[i]) !in rows
  {
  }

  lemma RowsGrow(rows: map<ChildKey, ChildRow>, id: Id, values: seq<Child>, i: nat)
    requires i < |values| && ChildRows(rows, id, values[..i]) && KeyIn(id, values[i]) !in rows
    ensures ChildRows(rows[KeyIn(id, values[i]) := ChildRowOf(values[i])], id, values[..i + 1])
  {
  }

  lemma {:induction false} DistinctOnce<T>(s: seq<T>, x: T)
    requires Distinct(s)
    ensures multiset(s)[x] == if x in s then 1 else 0
  {
    if s != [] {
      var n := |s| - 1;
      DistinctOnce(s[..n], x);
      assert s == s[..n] + [s[n]];
      assert s[n] !in s[..n];
    }
  }

  /** Two lists with the same distinct elements have the same multiset. */
  lemma SameElements<T>(a: seq<T>, b: seq<T>)
    requires Distinct(a) && Distinct(b)
    requires forall x :: x in a <==> x in b
    ensures multiset(a) == multiset(b)
  {
    forall x ensures multiset(a)[x] == multiset(b)[x] {
      DistinctOnce(a, x);
      DistinctOnce(b, x);
    }
  }

  // ---- Restored runs -----------------------------------------------------------------------------

  lemma BlankedStages(a: seq<Stage>)
    ensures forall d :: HasStage(a, d) <==> HasStage(Blanked(a), d)
    ensures DistinctStages(a) <==> DistinctStages(Blanked(a))
    ensures Acyclic(a) ==> Acyclic(Blanked(a))
  {
    var b := Blanked(a);
    forall d ensures HasStage(a, d) <==> HasStage(b, d) {
      if HasStage(a, d) {
        var k :| 0 <= k < |a| && a[k].id == d;
        assert b[k].id == d;
      }
      if HasStage(b, d) {
        var k :| 0 <= k < |b| && b[k].id == d;
        assert a[k].id == d;
      }
    }
    if DistinctStages(b) {
      forall i, j | 0 <= i < j < |a| ensures a[i].id != a[j].id {
        assert b[i].id != b[j].id;
      }
    }
    if rank :| Ranked(a, rank) {
      assert Ranked(b, rank);
    }
  }

  lemma BlankedGraphValid(production: bool, targets: seq<Target>, a: seq<Stage>)
    requires GraphValid(production, targets, a)
    ensures GraphValid(production, targets, Blanked(a))
  {
    hide TargetsValid, Acyclic, HasStage, HasTarget;
    var b := Blanked(a);
    BlankedStages(a);
    forall k | 0 <= k < |b| ensures StageValid(targets, b, b[k]) {
      assert StageValid(targets, a, a[k]);
    }
  }

  /** Stages come back without their summaries and otherwise as they were; children by stage, target and attempt. */
  lemma RestoredKeeps(s: Fleet, l: Fleet)
    requires Restores(s, l)
    ensures l.recovery == MetadataOnly && l.id == s.id && l.version == s.version && l.state == s.state
    ensures l.production == s.production && l.failurePolicy == s.failurePolicy && l.targets == s.targets
    ensures l.graphDigest == s.graphDigest && l.updatedAt == s.updatedAt
    ensures |l.stages| == |s.stages| && forall k :: 0 <= k < |s.stages| ==> l.stages[k] == s.stages[k].(summary := "")
    ensures forall c :: multiset(l.children)[c] == multiset(s.children)[c]
    ensures forall i, j :: 0 <= i < j < |l.children| ==>
      var a, b := l.children[i], l.children[j];
      || a.stageId < b.stageId
      || (a.stageId == b.stageId && a.targetId < b.targetId)
      || (a.stageId == b.stageId && a.targetId == b.targetId && a.attempt < b.attempt)
  {
  }

  /** What the database gives back is valid metadata again. */
  lemma RestoredIsValid(s: Fleet, l: Fleet)
    requires MetadataValid(s) && Restores(s, l)
    ensures MetadataValid(l)
  {
    hide GraphValid, HasStage, HasTarget, ValidCode;
    BlankedGraphValid(s.production, s.targets, s.stages);
    BlankedStages(s.stages);
    forall i | 0 <= i < |l.children| ensures ChildValid(l.targets, l.stages, l.children[i]) {
      assert l.children[i] in multiset(l.children);
      assert l.children[i] in s.children;
    }
    forall i, j | 0 <= i < j < |l.children|
      ensures !(SamePair(l.children[i], l.children[j]) && l.children[i].attempt == l.children[j].attempt)
    {
      assert ChildLess(l.children[i], l.children[j]);
    }
  }

  lemma LastsAgree(a: seq<Child>, b: seq<Child>)
    requires Sorted(a) && Sorted(b) && a != [] && b != []
    requires a[|a| - 1] in b && b[|b| - 1] in a
    ensures a[|a| - 1] == b[|b| - 1]
  {
  }

  lemma SortedPrefix(a: seq<Child>)
    requires Sorted(a) && a != []
    ensures Sorted(a[..|a| - 1])
  {
  }

  lemma PrefixElements(a: seq<Child>, x: Child)
    requires Sorted(a) && a != []
    ensures x in a[..|a| - 1] <==> x in a && x != a[|a| - 1]
  {
  }

  lemma BothEmpty(a: seq<Child>, b: seq<Child>)
    requires forall x :: x in a <==> x in b
    ensures a == [] <==> b == []
  {
    if a != [] {
      assert a[0] in b;
    }
    if b != [] {
      assert b[0] in a;
    }
  }

  lemma {:induction false} SortedElements(a: seq<Child>, b: seq<Child>)
    requires Sorted(a) && Sorted(b)
    requires forall x :: x in a <==> x in b
    ensures a == b
  {
    hide ChildLess, Sorted;
    BothEmpty(a, b);
    if a != [] {
      var m, n := |a| - 1, |b| - 1;
      LastsAgree(a, b);
      SortedPrefix(a);
      SortedPrefix(b);
      forall x ensures x in a[..m] <==> x in b[..n] {
        PrefixElements(a, x);
        PrefixElements(b, x);
      }
      SortedElements(a[..m], b[..n]);
      assert a == a[..m] + [a[m]] && b == b[..n] + [b[n]];
    }
  }

  /** There is only one run the database can give back. */
  lemma RestoredIsUnique(s: Fleet, l: Fleet, m: Fleet)
    requires Restores(s, l) && Restores(s, m)
    ensures l == m
  {
    hide Sorted;
    forall x ensures x in l.children <==> x in m.children {
      assert x in multiset(l.children) <==> x in multiset(m.children);
    }
    SortedElements(l.children, m.children);
  }

  // ---- Rows of other runs --------------------------------------------------------------------------

  ghost predicate SameElse<V>(a: map<(Id, nat), V>, b: map<(Id, nat), V>, id: Id) {
    forall key: (Id, nat) | key.0 != id :: (key in b <==> key in a) && (key in b ==> b[key] == a[key])
  }

  ghost predicate SameChildrenElse(a: map<ChildKey, ChildRow>, b: map<ChildKey, ChildRow>, id: Id) {
    forall key: ChildKey | key.run != id :: (key in b <==> key in a) && (key in b ==> b[key] == a[key])
  }

  lemma SameElseTransitive<V>(a: map<(Id, nat), V>, b: map<(Id, nat), V>, c: map<(Id, nat), V>, id: Id)
    requires SameElse(a, b, id) && SameElse(b, c, id)
    ensures SameElse(a, c, id)
  {
  }

  lemma SameChildrenElseTransitive(
    a: map<ChildKey, ChildRow>, b: map<ChildKey, ChildRow>, c: map<ChildKey, ChildRow>, id: Id)
    requires SameChildrenElse(a, b, id) && SameChildrenElse(b, c, id)
    ensures SameChildrenElse(a, c, id)
  {
  }

  // ---- The tables --------------------------------------------------------------------------------

  class FleetTables {
    var runs: map<Id, RunRow>
    var targets: map<(Id, nat), Target>
    var stages: map<(Id, nat), StageRow>
    var children: map<ChildKey, ChildRow>
    /** The last run written under each id. */
    ghost var contents: map<Id, Fleet>

    ghost predicate Holds(s: Fleet)
      reads this
    {
      && s.id in runs && runs[s.id] == RunRowOf(s)
      && TargetRows(targets, s.id, s.targets)
      && StageRows(stages, s.id, s.stages)
      && ChildRows(children, s.id, s.children)
    }

    ghost predicate Valid()
      reads this
    {
      && contents.Keys == runs.Keys
      && (forall id :: id in contents ==> contents[id].id == id && MetadataValid(contents[id]) && Holds(contents[id]))
    }

    constructor ()
      ensures Valid() && contents == map[]
    {
      runs, targets, stages, children, contents := map[], map[], map[], map[], map[];
    }

    /** Deletes the rows below the run row. */
    method DeleteRows(id: Id)
      modifies `targets, `stages, `children
      ensures forall n :: (id, n) !in targets && (id, n) !in stages
      ensures forall key :: key in children ==> key.run != id
      ensures SameElse(old(targets), targets, id)
      ensures SameElse(old(stages), stages, id)
      ensures SameChildrenElse(old(children), children, id)
    {
      children := map key | key in children && key.run != id :: children[key];
      stages := map key | key in stages && key.0 != id :: stages[key];
      targets := map key | key in targets && key.0 != id :: targets[key];
    }

    method InsertTargets(id: Id, values: seq<Target>)
      requires forall n :: (id, n) !in targets
      requires forall n :: 0 <= n < |values| ==> values[n].ordinal == n
      modifies `targets
      ensures TargetRows(targets, id, values)
      ensures SameElse(old(targets), targets, id)
    {
      for i := 0 to |values|
        invariant forall n: nat :: ((id, n) in targets <==> n < i) && (n < i ==> targets[(id, n)] == values[n])
        invariant SameElse(old(targets), targets, id)
      {
        targets := targets[(id, values[i].ordinal) := values[i]];
      }
    }

    method InsertStages(id: Id, values: seq<Stage>)
      requires forall n :: (id, n) !in stages
      modifies `stages
      ensures StageRows(stages, id, values)
      ensures SameElse(old(stages), stages, id)
    {
      for i := 0 to |values|
        invariant forall n: nat ::
          ((id, n) in stages <==> n < i) && (n < i ==> stages[(id, n)] == StageRowOf(values[n]))
        invariant SameElse(old(stages), stages, id)
      {
        stages := stages[(id, i as nat) := StageRowOf(values[i])];
      }
    }

    /** No insert meets a key that is already there. */
    method InsertChildren(id: Id, values: seq<Child>)
      requires forall key :: key in children ==> key.run != id
      requires DistinctChildKeys(values)
      modifies `children
      ensures ChildRows(children, id, values)
      ensures SameChildrenElse(old(children), children, id)
    {
      for i := 0 to |values|
        invariant ChildRows(children, id, values[..i])
        invariant SameChildrenElse(old(children), children, id)
      {
        NotYetThere(children, id, values, i);
        ghost var before := children;
        children := children[KeyIn(id, values[i]) := ChildRowOf(values[i])];
        RowsGrow(before, id, values, i);
      }
      assert values[..|values|] == values;
    }

    /** Replaces the rows of one run and of no other. */
    method ReplaceRows(s: Fleet)
      requires MetadataValid(s)
      modifies `runs, `targets, `stages, `children
      ensures Holds(s) && runs.Keys == old(runs).Keys + {s.id}
      ensures SameOutside(old(Rows()), Rows(), s.id)
    {
      hide MetadataValid, GraphValid, ChildRows, TargetRows, StageRows, SameElse, SameChildrenElse;
      ValidKeys(s);
      runs := runs[s.id := RunRowOf(s)];
      DeleteRows(s.id);
      ghost var bare := Rows();
      InsertTargets(s.id, s.targets);
      InsertStages(s.id, s.stages);
      InsertChildren(s.id, s.children);
      SameElseTransitive(old(targets), bare.targets, targets, s.id);
      SameElseTransitive(old(stages), bare.stages, stages, s.id);
      SameChildrenElseTransitive(old(children), bare.children, children, s.id);
    }

    /** Refuses invalid metadata, and an insert over an existing run; otherwise stores exactly the run. */
    method WriteFleetRun(s: Fleet, insertOnly: bool) returns (r: Result<(), StoreError>)
      requires Valid()
      modifies this
      ensures Valid()
      ensures r.Ok? <==> MetadataValid(s) && !(insertOnly && s.id in old(contents))
      ensures r.Ok? ==> contents == old(contents)[s.id := s]
      ensures r.Err? ==> contents == old(contents)
      ensures r.Err? ==> r.error == if MetadataValid(s) then RunAlreadyExists else StoreCorrupt
    {
      hide MetadataValid, GraphValid, ChildRows, TargetRows, StageRows, SameOutside;
      var valid := ValidateMetadata(s);
      if valid.Err? {
        return Err(StoreCorrupt);
      }
      if insertOnly && s.id in runs {
        return Err(RunAlreadyExists);
      }
      ghost var before := Rows();
      ReplaceRows(s);
      contents := contents[s.id := s];
      forall id | id in contents && id != s.id ensures Holds(contents[id]) {
        OthersUnchanged(before, Rows(), s.id, contents[id]);
      }
      r := Ok(());
    }

    ghost function Rows(): (t: Tables)
      reads this
    {
      Tables(runs, targets, stages, children)
    }

    method LoadTargets(id: Id, ghost values: seq<Target>) returns (r: seq<Target>)
      requires TargetRows(targets, id, values)
      ensures r == values
    {
      r := [];
      while (id, |r|) in targets
        invariant |r| <= |values| && r == values[..|r|]
        decreases |values| - |r|
      {
        r := r + [targets[(id, |r|)]];
      }
    }

    method LoadStages(id: Id, ghost values: seq<Stage>) returns (r: seq<Stage>)
      requires StageRows(stages, id, values)
      ensures r == Blanked(values)
    {
      r := [];
      while (id, |r|) in stages
        invariant |r| <= |values| && r == Blanked(values)[..|r|]
        decreases |values| - |r|
      {
        r := r + [StageFrom(stages[(id, |r|)])];
      }
    }

    /** Child rows in key order: smallest key first. */
    method LoadChildren(id: Id, ghost values: seq<Child>) returns (r: seq<Child>)
      requires ChildRows(children, id, values) && DistinctChildKeys(values)
      ensures Sorted(r) && multiset(r) == multiset(values)
    {
      hide ChildRows, DistinctChildKeys;
      r := [];
      var left := set key | key in children && key.run == id;
      while left != {}
        invariant left <= set key | key in children && key.run == id
        invariant Sorted(r)
        invariant forall key :: key in left ==> forall c :: c in r ==> KeyLess(KeyIn(id, c), key)
        invariant forall c :: c in r <==>
          KeyIn(id, c) in children && KeyIn(id, c) !in left && c == ChildFrom(KeyIn(id, c), children[KeyIn(id, c)])
        decreases |left|
      {
        ghost var least := LeastKey(id, left);
        assert Least(least, left);
        var key :| key in left && forall other :: other in left && other != key ==> KeyLess(key, other);
        left := left - {key};
        SortedGrows(r, ChildFrom(key, children[key]));
        r := r + [ChildFrom(key, children[key])];
      }
      LoadedAll(children, id, values, r);
    }

    /** Whatever was written last comes back, without summaries, metadata only, children in key order. */
    method LoadFleetRun(id: Id) returns (r: Result<Option<Fleet>, StoreError>)
      requires Valid()
      ensures r.Ok?
      ensures r.value.Some? <==> id in contents
      ensures r.value.Some? ==> Restores(contents[id], r.value.value) && MetadataValid(r.value.value)
    {
      hide MetadataValid, GraphValid, ChildRows, TargetRows, StageRows, Sorted, DistinctChildKeys;
      if id !in runs {
        return Ok(None);
      }
      ghost var s := contents[id];
      ValidKeys(s);
      var row := runs[id];
      var loadedTargets := LoadTargets(id, s.targets);
      var loadedStages := LoadStages(id, s.stages);
      var loadedChildren := LoadChildren(id, s.children);
      var l := Fleet(id, row.version, row.state, row.production, row.failurePolicy, loadedTargets, loadedStages,
        loadedChildren, row.graphDigest, MetadataOnly, row.updatedAt);
      RestoredIsValid(s, l);
      var valid := ValidateMetadata(l);
      if valid.Err? {
        return Err(StoreCorrupt);
      }
      r := Ok(Some(l));
    }
  }

  /** All tables at one moment. */
  datatype Tables = Tables(
    runs: map<Id, RunRow>, targets: map<(Id, nat), Target>, stages: map<(Id, nat), StageRow>,
    children: map<ChildKey, ChildRow>)

  ghost predicate SameOutside(a: Tables, b: Tables, id: Id) {
    && (forall key: Id | key != id ::
         (key in b.runs <==> key in a.runs) && (key in b.runs ==> b.runs[key] == a.runs[key]))
    && SameElse(a.targets, b.targets, id)
    && SameElse(a.stages, b.stages, id)
    && SameChildrenElse(a.children, b.children, id)
  }

  lemma OthersUnchanged(a: Tables, b: Tables, id: Id, s: Fleet)
    requires SameOutside(a, b, id) && s.id != id
    requires s.id in a.runs && a.runs[s.id] == RunRowOf(s)
    requires TargetRows(a.targets, s.id, s.targets) && StageRows(a.stages, s.id, s.stages)
    requires ChildRows(a.children, s.id, s.children)
    ensures s.id in b.runs && b.runs[s.id] == RunRowOf(s)
    ensures TargetRows(b.targets, s.id, s.targets) && StageRows(b.stages, s.id, s.stages)
    ensures ChildRows(b.children, s.id, s.children)
  {
  }

  lemma ValidKeys(s: Fleet)
    requires MetadataValid(s)
    ensures DistinctChildKeys(s.children)
    ensures forall n :: 0 <= n < |s.targets| ==> s.targets[n].ordinal == n
  {
  }

  ghost predicate Least(key: ChildKey, keys: set<ChildKey>) {
    key in keys && forall other :: other in keys && other != key ==> KeyLess(key, other)
  }

  lemma KeyOrder(a: ChildKey, b: ChildKey, c: ChildKey)
    ensures a.run == b.run ==> a == b || KeyLess(a, b) || KeyLess(b, a)
    ensures KeyLess(a, b) && KeyLess(b, c) ==> KeyLess(a, c)
  {
  }

  lemma {:induction false} LeastKey(id: Id, keys: set<ChildKey>) returns (key: ChildKey)
    requires keys != {} && forall key :: key in keys ==> key.run == id
    ensures Least(key, keys)
    decreases |keys|
  {
    hide KeyLess;
    var some :| some in keys;
    var rest := keys - {some};
    assert keys == rest + {some};
    key := some;
    if rest != {} {
      var least := LeastKey(id, rest);
      KeyOrder(least, some, some);
      if KeyLess(least, some) {
        key := least;
      } else {
        forall other | other in rest ensures KeyLess(some, other) {
          KeyOrder(some, least, other);
        }
      }
    }
  }

  lemma SortedGrows(r: seq<Child>, c: Child)
    requires Sorted(r) && forall x :: x in r ==> ChildLess(x, c)
    ensures Sorted(r + [c])
  {
  }

  lemma LoadedAll(rows: map<ChildKey, ChildRow>, id: Id, values: seq<Child>, r: seq<Child>)
    requires ChildRows(rows, id, values) && DistinctChildKeys(values) && Sorted(r)
    requires forall c :: c in r <==> KeyIn(id, c) in rows && c == ChildFrom(KeyIn(id, c), rows[KeyIn(id, c)])
    ensures multiset(r) == multiset(values)
  {
    forall c ensures c in r <==> c in values {
      if c in values {
        var i :| 0 <= i < |values| && values[i] == c;
        assert KeyIn(id, values[i]) in rows;
      }
      if c in r {
        var i :| 0 <= i < |values| && KeyIn(id, values[i]) == KeyIn(id, c);
        assert values[i] == c;
      }
    }
    assert Distinct(r) by {
      forall i, j | 0 <= i < j < |r| ensures r[i] != r[j] {
        assert ChildLess(r[i], r[j]);
      }
    }
    assert Distinct(values);
    SameElements(r, values);
  }
}
