/** The dependency table of the override editor and its one-pass enabling (pkg/configtui/command.go, model.go). */
module DependencyTable {
  import opened Common
  import opened Dependencies
  import Graphs

  type Table = map<string, seq<string>>

  /** Every model whose tree resolves, with its externals followed by its intermediate transformations. */
  method LoadDependencies(repo: Repo, models: seq<string>) returns (table: Table)
    ensures Loaded(repo, Elements(models), table)
  {
    table := map[];
    for i := 0 to |models|
      invariant Loaded(repo, Elements(models[..i]), table)
    {
      var externals, intermediates, ok := FlattenModel(repo, models[i]);
      assert Elements(models[..i + 1]) == Elements(models[..i]) + {models[i]};
      ResolvesIff(repo, models[i]);
      if ok {
        ghost var list := externals + intermediates;
        assert list[..|externals|] == externals && list[|externals|..] == intermediates;
        assert ListsNeeds(repo, models[i], list, |externals|);
        table := table[models[i] := externals + intermediates];
      }
    }
    assert models[..|models|] == models;
  }

  /** `x` is what `model` needs: a reachable external, or another reachable transformation. */
  ghost predicate Needs(repo: Repo, model: string, x: string) {
    ReachesExternal(repo, model, x) || (x in repo.transformations && LeadsTo(repo, model, x) && x != model)
  }

  /** First the `n` reachable externals, each once, then the other reachable transformations, each once. */
  ghost predicate ListsNeeds(repo: Repo, model: string, list: seq<string>, n: nat) {
    && n <= |list| && NoDuplicates(list[..n]) && NoDuplicates(list[n..])
    && (forall x :: x in list[..n] <==> ReachesExternal(repo, model, x))
    && (forall x :: x in list[n..] <==> x in repo.transformations && LeadsTo(repo, model, x) && x != model)
  }

  ghost predicate Loaded(repo: Repo, models: set<string>, table: Table) {
    && (forall m :: m in table <==> m in models && Resolve(repo, m, {}).Ok?)
    && forall m | m in table :: exists n: nat :: ListsNeeds(repo, m, table[m], n)
  }

  lemma ListedIffNeeded(repo: Repo, model: string, list: seq<string>, x: string)
    requires exists n: nat :: ListsNeeds(repo, model, list, n)
    ensures x in list <==> Needs(repo, model, x)
  {
    var n: nat :| ListsNeeds(repo, model, list, n);
    assert list == list[..n] + list[n..];
  }

  // ---- The loaded table is transitively closed ----

  predicate TransitivelyClosed(table: Table) {
    forall a, b | a in table && b in table[a] && b in table :: Elements(table[b]) <= Elements(table[a])
  }

  /** A model reached from a resolvable model does not lead back to it. */
  lemma NoWayBack(repo: Repo, a: string, b: string)
    requires Resolve(repo, a, {}).Ok? && a in repo.transformations
    requires b in repo.transformations && b != a && LeadsTo(repo, a, b)
    ensures !LeadsTo(repo, b, a)
  {
    LeadsToStep(repo, a, b);
    ResolvedChildren(repo, a, {});
    var n :| DependsOn(repo, a, Transformation, n) && LeadsTo(repo, n, b);
    TransformationsExact(repo, n, {} + {a}, a);
    if LeadsTo(repo, b, a) {
      Graphs.LeadsTransitive(EffectiveGraph(repo), n, b, a);
    }
  }

  /** What a transformation below it needs, the model needs too. */
  lemma NeedsTransitive(repo: Repo, a: string, b: string, x: string)
    requires Resolve(repo, a, {}).Ok? && a in repo.transformations && b in repo.transformations
    requires LeadsTo(repo, a, b) && b != a && Needs(repo, b, x)
    ensures Needs(repo, a, x)
  {
    if ReachesExternal(repo, b, x) {
      var m :| LeadsTo(repo, b, m) && ExternalAt(repo, m, x);
      Graphs.LeadsTransitive(EffectiveGraph(repo), a, b, m);
    } else {
      Graphs.LeadsTransitive(EffectiveGraph(repo), a, b, x);
      NoWayBack(repo, a, b);
    }
  }

  /** A model of the table that another one reaches only as an external needs nothing that the other does not need. */
  ghost predicate SharedNamesAgree(repo: Repo, models: set<string>) {
    forall a, b | a in models && b in models && Resolve(repo, a, {}).Ok? && Resolve(repo, b, {}).Ok? ::
      ReachesExternal(repo, a, b) && !LeadsTo(repo, a, b) ==> forall x | Needs(repo, b, x) :: Needs(repo, a, x)
  }

  /** The loaded table is closed exactly when no name that is both a model's and an external's breaks it. */
  lemma LoadedTableIsClosedIff(repo: Repo, models: set<string>, table: Table)
    requires models <= repo.transformations.Keys && Loaded(repo, models, table)
    ensures TransitivelyClosed(table) <==> SharedNamesAgree(repo, models)
  {
    forall a, x | a in table ensures x in table[a] <==> Needs(repo, a, x) {
      ListedIffNeeded(repo, a, table[a], x);
    }
    if SharedNamesAgree(repo, models) {
      forall a, b, x | a in table && b in table[a] && b in table && x in table[b] ensures x in table[a] {
        if LeadsTo(repo, a, b) && b != a { NeedsTransitive(repo, a, b, x); }
      }
    }
    if TransitivelyClosed(table) {
      forall a, b, x | a in table && b in table && ReachesExternal(repo, a, b) && Needs(repo, b, x)
        ensures Needs(repo, a, x)
      {
        assert b in table[a] && x in Elements(table[b]);
      }
    }
  }

  /** No model uses the name of a transformation for an external. */
  ghost predicate NamesApart(repo: Repo) {
    forall m, x | DependsOn(repo, m, External, x) :: x !in repo.transformations
  }

  /** It suffices that no model uses the name of a transformation for an external. */
  lemma NamesApartAgree(repo: Repo, models: set<string>)
    requires NamesApart(repo) && models <= repo.transformations.Keys
    ensures SharedNamesAgree(repo, models)
  {
    forall a, b | a in models && b in models ensures !ReachesExternal(repo, a, b) {
      assert forall m :: !ExternalAt(repo, m, b);
    }
  }

  // ---- Enabling ----

  datatype ModelEntry = ModelEntry(name: string, overrideKey: string, enabled: bool)

  function EnabledNames(entries: seq<ModelEntry>): set<string> {
    set i | 0 <= i < |entries| && entries[i].enabled :: entries[i].name
  }

  ghost predicate NeededBy(table: Table, names: set<string>, name: string) {
    exists n :: n in names && n in table && name in table[n]
  }

  /** The entry is enabled and the table has the name among its dependencies. */
  ghost predicate NeedsDirectly(e: ModelEntry, table: Table, name: string) {
    e.enabled && e.name in table && name in table[e.name]
  }

  /** Exactly what `names` need is enabled in addition. */
  ghost predicate Widened(before: seq<ModelEntry>, after: seq<ModelEntry>, table: Table, names: set<string>) {
    |after| == |before| && forall i | 0 <= i < |before| ::
      after[i] == before[i].(enabled := before[i].enabled || NeededBy(table, names, before[i].name))
  }

  function NewlyEnabled(before: seq<ModelEntry>, after: seq<ModelEntry>): nat
    requires |before| == |after|
  {
    if before == [] then 0
    else NewlyEnabled(before[..|before| - 1], after[..|before| - 1])
         + if !before[|before| - 1].enabled && after[|before| - 1].enabled then 1 else 0
  }

  /** The entries when the pass has dealt with the first `n`, each judged on what is enabled by then. */
  ghost function PassTo(table: Table, before: seq<ModelEntry>, n: nat): (r: seq<ModelEntry>)
    requires n <= |before|
    ensures |r| == |before|
  {
    if n == 0 then before
    else
      var now := PassTo(table, before, n - 1);
      now[n - 1 := now[n - 1].(enabled := now[n - 1].enabled || NeededBy(table, EnabledNames(now), now[n - 1].name))]
  }

  ghost function OnePass(table: Table, before: seq<ModelEntry>): seq<ModelEntry> {
    PassTo(table, before, |before|)
  }

  /** No enabled entry needs a disabled one. */
  ghost predicate Closed(table: Table, entries: seq<ModelEntry>) {
    forall i | 0 <= i < |entries| && NeededBy(table, EnabledNames(entries), entries[i].name) :: entries[i].enabled
  }

  ghost predicate Superset(before: seq<ModelEntry>, after: seq<ModelEntry>) {
    |after| == |before| && forall i | 0 <= i < |before| ::
      after[i] == before[i].(enabled := after[i].enabled) && (before[i].enabled ==> after[i].enabled)
  }

  /** On a transitively closed table, enabling what is needed leaves nothing newly needed. */
  lemma WideningAddsNoNeeds(table: Table, before: seq<ModelEntry>, after: seq<ModelEntry>, names: set<string>)
    requires TransitivelyClosed(table) && EnabledNames(before) == names
    requires Superset(before, after)
    requires forall i | 0 <= i < |before| && after[i].enabled ::
      before[i].enabled || NeededBy(table, names, before[i].name)
    ensures forall x :: NeededBy(table, EnabledNames(after), x) <==> NeededBy(table, names, x)
  {
    assert forall i | 0 <= i < |before| && before[i].enabled :: before[i].name in EnabledNames(before);
    forall x ensures NeededBy(table, EnabledNames(after), x) <==> NeededBy(table, names, x) {
      if NeededBy(table, EnabledNames(after), x) {
        var n :| n in EnabledNames(after) && n in table && x in table[n];
        if n !in names {
          var i :| 0 <= i < |after| && after[i].enabled && after[i].name == n;
          var k :| k in names && k in table && n in table[k];
          assert x in Elements(table[n]);
        }
      }
      if n :| n in names && n in table && x in table[n] {
        var i :| 0 <= i < |before| && before[i].enabled && before[i].name == n;
        assert after[i].enabled;
        assert n in EnabledNames(after);
      }
    }
  }

  /** Enabling what the enabled entries need gives the least closed superset. */
  lemma WidenedIsLeastClosed(table: Table, before: seq<ModelEntry>, after: seq<ModelEntry>)
    requires TransitivelyClosed(table) && Widened(before, after, table, EnabledNames(before))
    ensures Superset(before, after) && Closed(table, after)
    ensures forall other: seq<ModelEntry> | Superset(before, other) && Closed(table, other) :: Superset(after, other)
    ensures NewlyEnabled(before, after) == 0 <==> Closed(table, before)
  {
    WideningAddsNoNeeds(table, before, after, EnabledNames(before));
    forall other: seq<ModelEntry> | Superset(before, other) && Closed(table, other) ensures Superset(after, other) {
      forall x | NeededBy(table, EnabledNames(before), x) ensures NeededBy(table, EnabledNames(other), x) {
        var n :| n in EnabledNames(before) && n in table && x in table[n];
        var i :| 0 <= i < |before| && before[i].enabled && before[i].name == n;
        assert other[i].enabled;
        assert n in EnabledNames(other);
      }
    }
    NothingNewIffSame(before, after);
    if Closed(table, before) {
      assert before == after;
    }
  }

  lemma {:induction false} NothingNewIffSame(before: seq<ModelEntry>, after: seq<ModelEntry>)
    requires Superset(before, after)
    ensures NewlyEnabled(before, after) == 0 <==> before == after
  {
    if before == [] {
    } else {
      var n := |before| - 1;
      NothingNewIffSame(before[..n], after[..n]);
      assert before == before[..n] + [before[n]] && after == after[..n] + [after[n]];
    }
  }

  class Model {
    var externalModels: seq<ModelEntry>
    var transformationModels: seq<ModelEntry>
    var dependencies: Option<Table>  // None: never loaded
    var dirty: bool

    constructor ()
      ensures externalModels == [] && transformationModels == [] && dependencies == None && !dirty
    {
      externalModels, transformationModels, dependencies, dirty := [], [], None, false;
    }

    function Entries(): seq<ModelEntry>
      reads this
    {
      externalModels + transformationModels
    }

    function Deps(): Table
      reads this
    {
      if dependencies.None? then map[] else dependencies.value
    }

    method IsModelNeededByEnabled(modelName: string) returns (needed: bool)
      ensures needed <==> NeededBy(Deps(), EnabledNames(Entries()), modelName)
      ensures needed <==> dependencies.Some? && exists e ::
        (e in externalModels || e in transformationModels) && NeedsDirectly(e, dependencies.value, modelName)
    {
      if dependencies.None? { return false; }
      needed := AnyEnabledNeeds(transformationModels, dependencies.value, modelName);
      if !needed {
        needed := AnyEnabledNeeds(externalModels, dependencies.value, modelName);
      }
      EnabledNamesConcat(externalModels, transformationModels);
    }

    /**
     * One pass over the externals and then the transformations; `WidenedIsLeastClosed` says what it makes of a closed
     * table.
     */
    method EnableMissingDependencies() returns (count: nat)
      modifies this
      ensures dependencies == old(dependencies)
      ensures |externalModels| == |old(externalModels)| && |transformationModels| == |old(transformationModels)|
      ensures Entries() == OnePass(Deps(), old(Entries()))
      ensures count == NewlyEnabled(old(Entries()), Entries())
      ensures dirty == (old(dirty) || count > 0)
    {
      ghost var before := Entries();
      count := EnableExternals(before);
      count := EnableTransformations(before, count);
      assert before[..|before|] == before && Entries()[..|before|] == Entries();
      if count > 0 { dirty := true; }
    }

    method EnableExternals(ghost before: seq<ModelEntry>) returns (count: nat)
      requires before == Entries()
      modifies this`externalModels
      ensures |externalModels| == |old(externalModels)|
      ensures Passed(before, Entries(), |externalModels|, Deps(), count)
    {
      count := 0;
      ghost var table := Deps();
      for i := 0 to |externalModels|
        invariant |externalModels| == |old(externalModels)|
        invariant Passed(before, Entries(), i, table, count)
      {
        var enabled := EnableExternal(i, before, count);
        count := count + enabled;
      }
    }

    method EnableTransformations(ghost before: seq<ModelEntry>, start: nat) returns (count: nat)
      requires Passed(before, Entries(), |externalModels|, Deps(), start)
      modifies this`transformationModels
      ensures |transformationModels| == |old(transformationModels)|
      ensures Passed(before, Entries(), |Entries()|, Deps(), count)
    {
      count := start;
      ghost var table, at := Deps(), |externalModels|;
      for i := 0 to |transformationModels|
        invariant |transformationModels| == |old(transformationModels)|
        invariant at == |externalModels| + i
        invariant Passed(before, Entries(), at, table, count)
      {
        var enabled := EnableTransformation(i, before, count, at, table);
        count := count + enabled;
        at := at + 1;
      }
    }

    method EnableExternal(i: nat, ghost before: seq<ModelEntry>, ghost count: nat) returns (enabled: nat)
      requires i < |externalModels| && Passed(before, Entries(), i, Deps(), count)
      modifies this`externalModels
      ensures |externalModels| == |old(externalModels)|
      ensures Passed(before, Entries(), i + 1, Deps(), count + enabled)
    {
      var needed := false;
      if !externalModels[i].enabled {
        needed := IsModelNeededByEnabled(externalModels[i].name);
      }
      PassOne(before, Entries(), i, Deps(), count, needed);
      enabled := 0;
      if needed {
        externalModels := externalModels[i := externalModels[i].(enabled := true)];
        enabled := 1;
      }
      assert Entries() == old(Entries())[i := old(Entries())[i].(enabled := old(Entries())[i].enabled || needed)];
    }

    method EnableTransformation(
        i: nat, ghost before: seq<ModelEntry>, ghost count: nat, ghost at: nat, ghost table: Table)
      returns (enabled: nat)
      requires i < |transformationModels| && at == |externalModels| + i && table == Deps()
      requires Passed(before, Entries(), at, table, count)
      modifies this`transformationModels
      ensures |transformationModels| == |old(transformationModels)|
      ensures Passed(before, Entries(), at + 1, table, count + enabled)
    {
      var needed := false;
      if !transformationModels[i].enabled {
        needed := IsModelNeededByEnabled(transformationModels[i].name);
      }
      PassOne(before, Entries(), at, table, count, needed);
      enabled := 0;
      if needed {
        transformationModels := transformationModels[i := transformationModels[i].(enabled := true)];
        enabled := 1;
      }
      assert Entries() == old(Entries())[at := old(Entries())[at].(enabled := old(Entries())[at].enabled || needed)];
    }
  }

  method AnyEnabledNeeds(entries: seq<ModelEntry>, table: Table, name: string) returns (found: bool)
    ensures found <==> NeededBy(table, EnabledNames(entries), name)
    ensures found <==> exists e :: e in entries && NeedsDirectly(e, table, name)
  {
    for i := 0 to |entries|
      invariant forall k | 0 <= k < i :: !NeedsDirectly(entries[k], table, name)
    {
      if entries[i].enabled && entries[i].name in table && name in table[entries[i].name] {
        assert entries[i].name in EnabledNames(entries) && NeedsDirectly(entries[i], table, name);
        return true;
      }
    }
    return false;
  }

  lemma EnabledNamesConcat(a: seq<ModelEntry>, b: seq<ModelEntry>)
    ensures EnabledNames(a + b) == EnabledNames(a) + EnabledNames(b)
  {
    forall x | x in EnabledNames(a) + EnabledNames(b) ensures x in EnabledNames(a + b) {
      if x in EnabledNames(a) {
        var i :| 0 <= i < |a| && a[i].enabled && a[i].name == x;
        assert (a + b)[i] == a[i];
      } else {
        var i :| 0 <= i < |b| && b[i].enabled && b[i].name == x;
        assert (a + b)[|a| + i] == b[i];
      }
    }
  }

  /** The pass has dealt with the first `n` entries, enabling `count` of them. */
  ghost predicate Passed(before: seq<ModelEntry>, now: seq<ModelEntry>, n: nat, table: Table, count: nat) {
    n <= |before| && now == PassTo(table, before, n) && count == NewlyEnabled(before[..n], now[..n])
  }

  lemma PassOne(before: seq<ModelEntry>, now: seq<ModelEntry>, n: nat, table: Table, count: nat, needed: bool)
    requires Passed(before, now, n, table, count) && n < |before|
    requires needed <==> !now[n].enabled && NeededBy(table, EnabledNames(now), now[n].name)
    ensures Passed(before, now[n := now[n].(enabled := now[n].enabled || needed)], n + 1, table,
      count + if needed then 1 else 0)
  {
    var next := now[n := now[n].(enabled := now[n].enabled || needed)];
    PassKeeps(table, before, n);
    assert before[..n + 1][..n] == before[..n] && next[..n + 1][..n] == now[..n];
  }

  lemma {:induction false} PassKeeps(table: Table, before: seq<ModelEntry>, n: nat)
    requires n <= |before|
    ensures Superset(before, PassTo(table, before, n))
    ensures forall i | n <= i < |before| :: PassTo(table, before, n)[i] == before[i]
  {
    if n == 0 {
    } else {
      PassKeeps(table, before, n - 1);
    }
  }

  // ---- When one pass is enough ----

  lemma {:induction false} PassWidens(table: Table, before: seq<ModelEntry>, n: nat)
    requires TransitivelyClosed(table) && n <= |before|
    ensures forall i | 0 <= i < n ::
      PassTo(table, before, n)[i].enabled
        == (before[i].enabled || NeededBy(table, EnabledNames(before), before[i].name))
  {
    if n == 0 {
    } else {
      PassWidens(table, before, n - 1);
      PassKeeps(table, before, n - 1);
      WideningAddsNoNeeds(table, before, PassTo(table, before, n - 1), EnabledNames(before));
    }
  }

  /** On a transitively closed table one pass enables exactly what the enabled entries need. */
  lemma OnePassWidens(table: Table, before: seq<ModelEntry>)
    requires TransitivelyClosed(table)
    ensures Widened(before, OnePass(table, before), table, EnabledNames(before))
  {
    PassWidens(table, before, |before|);
    PassKeeps(table, before, |before|);
  }

  /** On a transitively closed table a second pass finds nothing. */
  lemma SecondPassIsIdle(table: Table, before: seq<ModelEntry>)
    requires TransitivelyClosed(table)
    ensures OnePass(table, OnePass(table, before)) == OnePass(table, before)
  {
    var once := OnePass(table, before);
    OnePassWidens(table, before);
    OnePassWidens(table, once);
    WidenedIsLeastClosed(table, before, once);
    WidenedIsLeastClosed(table, once, OnePass(table, once));
    NothingNewIffSame(once, OnePass(table, once));
  }

  /** `x` stands first, then what needs it, then what needs that, and only the last is enabled. */
  function Chain(a: string, b: string, x: string): seq<ModelEntry> {
    [ModelEntry(x, x, false), ModelEntry(b, b, false), ModelEntry(a, a, true)]
  }

  /** On any other table a second pass can find something: what is needed only by what the first one enabled. */
  lemma FirstPassMisses(table: Table, a: string, b: string, x: string)
    requires a in table && b in table[a] && b in table && x in table[b] && x !in table[a]
    ensures var once := OnePass(table, Chain(a, b, x));
      !once[0].enabled && once[1].enabled && OnePass(table, once)[0].enabled
  {
    var before := Chain(a, b, x);
    assert before[2].name == a && before[2].enabled;
    assert EnabledNames(before) == {a};
    assert PassTo(table, before, 1) == before;
    var two := PassTo(table, before, 2);
    assert two == before[1 := ModelEntry(b, b, true)];
    assert PassTo(table, before, 3) == two;
    assert two[1].enabled && two[1].name == b && b in EnabledNames(two);
    assert NeededBy(table, EnabledNames(two), x);
    assert PassTo(table, two, 1)[0].enabled;
    assert PassTo(table, two, 2)[0].enabled;
  }

  /** One pass is enough for all entries exactly when the table is transitively closed. */
  lemma OnePassIsEnoughIff(table: Table)
    ensures (forall before :: OnePass(table, OnePass(table, before)) == OnePass(table, before))
            <==> TransitivelyClosed(table)
  {
    if TransitivelyClosed(table) {
      forall before ensures OnePass(table, OnePass(table, before)) == OnePass(table, before) {
        SecondPassIsIdle(table, before);
      }
    } else {
      var a, b :| a in table && b in table[a] && b in table && !(Elements(table[b]) <= Elements(table[a]));
      var x :| x in table[b] && x !in table[a];
      FirstPassMisses(table, a, b, x);
      assert OnePass(table, OnePass(table, Chain(a, b, x))) != OnePass(table, Chain(a, b, x));
    }
  }

  /**
   * On the loaded table one call closes the enabled set, enabling no more than it must, and a second call finds
   * nothing; without the condition on shared names, `LoadedTableIsClosedIff` and `OnePassIsEnoughIff` say, some entries
   * need a second call.
   */
  method SecondCallEnablesNothing(repo: Repo, models: set<string>, m: Model) returns (first: nat, second: nat)
    requires models <= repo.transformations.Keys && Loaded(repo, models, m.Deps())
    modifies m
    ensures m.Deps() == old(m.Deps())
    ensures var once := OnePass(m.Deps(), old(m.Entries()));
      && m.Entries() == OnePass(m.Deps(), once)
      && first == NewlyEnabled(old(m.Entries()), once) && second == NewlyEnabled(once, m.Entries())
    ensures SharedNamesAgree(repo, models) ==>
      && Superset(old(m.Entries()), m.Entries()) && Closed(m.Deps(), m.Entries())
      && (forall other: seq<ModelEntry> | Superset(old(m.Entries()), other) && Closed(m.Deps(), other) ::
           Superset(m.Entries(), other))
      && first == NewlyEnabled(old(m.Entries()), m.Entries()) && second == 0
  {
    ghost var table, before := m.Deps(), m.Entries();
    first := m.EnableMissingDependencies();
    ghost var once := m.Entries();
    second := m.EnableMissingDependencies();
    LoadedTableIsClosedIff(repo, models, table);
    if TransitivelyClosed(table) {
      OnePassWidens(table, before);
      WidenedIsLeastClosed(table, before, once);
      SecondPassIsIdle(table, before);
      NothingNewIffSame(once, once);
    }
  }

  /** With `b` an external of one model and a model of its own, enabling `a` takes two calls to reach what `b` needs. */
  lemma SharedNameNeedsSecondCall(repo: Repo, table: Table)
    requires repo.transformations == map["a" := Some([EXTERNAL_PREFIX + "b"]), "b" := Some([EXTERNAL_PREFIX + "x"])]
    requires Loaded(repo, {"a", "b"}, table)
    ensures !SharedNamesAgree(repo, {"a", "b"})
    ensures var once := OnePass(table, Chain("a", "b", "x"));
      !once[0].enabled && once[1].enabled && OnePass(table, once)[0].enabled
  {
    OneNeeded(repo, "a", "b");
    OneNeeded(repo, "b", "x");
    ListedIffNeeded(repo, "a", table["a"], "b");
    ListedIffNeeded(repo, "a", table["a"], "x");
    ListedIffNeeded(repo, "b", table["b"], "x");
    FirstPassMisses(table, "a", "b", "x");
    LoadedTableIsClosedIff(repo, {"a", "b"}, table);
    assert "x" in Elements(table["b"]);
  }

  lemma OneNeeded(repo: Repo, m: string, x: string)
    requires m in repo.transformations && repo.transformations[m] == Some([EXTERNAL_PREFIX + x]) && IsModelName(x)
    ensures Resolve(repo, m, {}).Ok?
    ensures forall y :: Needs(repo, m, y) <==> y == x
  {
    ParsesPrefixed(x);
    OneExternal(repo, m, EXTERNAL_PREFIX + x, x);
  }
}
