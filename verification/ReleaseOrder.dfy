/** Ordering a multi-project release (pkg/release/deps.go); the dependency table is a parameter. */
module ReleaseOrder {
  import opened Common
  import opened Graphs

  type Table = map<string, seq<string>>

  /** The table the program ships with. */
  const PROJECT_DEPENDENCIES: Table := map["xatu-cbt" := ["cbt"], "lab-backend" := ["lab"]]

  function GetDependencies(table: Table, project: string): seq<string> {
    if project in table then table[project] else []
  }

  datatype DependencyInfo = DependencyInfo(
    project: string, dependsOn: seq<string>, requiredBy: seq<string>, needsWait: bool)

  type Infos = map<string, DependencyInfo>

  /** `a` before `b` in an edge means that `a` depends on `b`. */
  function DependencyGraph(deps: Infos): Graph {
    map p | p in deps :: Elements(deps[p].dependsOn)
  }

  /** The dependencies among the selected projects that the first `n` of them have. */
  function SelectedEdges(table: Table, selected: seq<string>, n: nat): set<(string, string)>
    requires n <= |selected|
  {
    set i, d | 0 <= i < n && d in GetDependencies(table, selected[i]) && d in selected :: (selected[i], d)
  }

  /** One selected project depends on another exactly when the table lists it. */
  lemma SelectedEdgeIff(table: Table, selected: seq<string>, a: string, d: string)
    ensures (a, d) in SelectedEdges(table, selected, |selected|)
            <==> a in selected && d in selected && a in table && d in table[a]
  {
    if a in selected {
      var i :| 0 <= i < |selected| && selected[i] == a;
    }
  }

  /** In the shipped table that is xatu-cbt on cbt, and lab-backend on lab. */
  lemma ShippedEdgeIff(selected: seq<string>, a: string, d: string)
    ensures (a, d) in SelectedEdges(PROJECT_DEPENDENCIES, selected, |selected|)
            <==> a in selected && d in selected && (a, d) in {("xatu-cbt", "cbt"), ("lab-backend", "lab")}
  {
    SelectedEdgeIff(PROJECT_DEPENDENCIES, selected, a, d);
    assert "xatu-cbt"[0] != "lab-backend"[0];
  }

  /** The infos describe exactly the dependencies `edges`. */
  ghost predicate Describes(deps: Infos, edges: set<(string, string)>) {
    forall p | p in deps ::
      && deps[p].project == p
      && (forall q :: q in deps[p].dependsOn <==> (p, q) in edges)
      && (forall q :: q in deps[p].requiredBy <==> (q, p) in edges)
      && (deps[p].needsWait <==> exists q :: (q, p) in edges)
  }

  function AddDependency(deps: Infos, project: string, dep: string): Infos
    requires project in deps && dep in deps
  {
    var one := deps[project := deps[project].(dependsOn := deps[project].dependsOn + [dep])];
    one[dep := one[dep].(requiredBy := one[dep].requiredBy + [project], needsWait := true)]
  }

  // ---- The dependencies in the order they are found ----

  function PairsOf(selected: seq<string>, project: string, deps: seq<string>): seq<(string, string)> {
    if deps == [] then []
    else
      var n := |deps| - 1;
      PairsOf(selected, project, deps[..n]) + if deps[n] in selected then [(project, deps[n])] else []
  }

  function SelectedPairs(table: Table, selected: seq<string>, n: nat): seq<(string, string)>
    requires n <= |selected|
  {
    if n == 0 then []
    else
      SelectedPairs(table, selected, n - 1)
      + PairsOf(selected, selected[n - 1], GetDependencies(table, selected[n - 1]))
  }

  function DependsIn(pairs: seq<(string, string)>, p: string): seq<string> {
    if pairs == [] then []
    else
      var n := |pairs| - 1;
      DependsIn(pairs[..n], p) + if pairs[n].0 == p then [pairs[n].1] else []
  }

  function RequiresIn(pairs: seq<(string, string)>, p: string): seq<string> {
    if pairs == [] then []
    else
      var n := |pairs| - 1;
      RequiresIn(pairs[..n], p) + if pairs[n].1 == p then [pairs[n].0] else []
  }

  /** Each info lists what its project depends on and what depends on it, in the order found, as often as found. */
  ghost predicate Records(deps: Infos, pairs: seq<(string, string)>) {
    forall p | p in deps ::
      deps[p] == DependencyInfo(p, DependsIn(pairs, p), RequiresIn(pairs, p), RequiresIn(pairs, p) != [])
  }

  /** The infos after the dependencies `pairs` between their projects. */
  function Added(deps: Infos, pairs: seq<(string, string)>): (r: Infos)
    ensures r.Keys == deps.Keys
  {
    if pairs == [] then deps
    else
      var n := |pairs| - 1;
      var before := Added(deps, pairs[..n]);
      if pairs[n].0 in before && pairs[n].1 in before then AddDependency(before, pairs[n].0, pairs[n].1) else before
  }

  lemma AddedSnoc(deps: Infos, pairs: seq<(string, string)>, project: string, dep: string)
    requires project in deps && dep in deps
    ensures Added(deps, pairs + [(project, dep)]) == AddDependency(Added(deps, pairs), project, dep)
  {
    assert (pairs + [(project, dep)])[..|pairs|] == pairs;
  }

  lemma AddDependencyRecords(deps: Infos, pairs: seq<(string, string)>, pair: (string, string))
    requires Records(deps, pairs) && pair.0 in deps && pair.1 in deps
    ensures Records(AddDependency(deps, pair.0, pair.1), pairs + [pair])
  {
    assert (pairs + [pair])[..|pairs|] == pairs;
  }

  lemma {:induction false} AddedRecords(deps: Infos, pairs: seq<(string, string)>)
    requires forall pair | pair in pairs :: pair.0 in deps && pair.1 in deps
    requires forall p | p in deps :: deps[p] == DependencyInfo(p, [], [], false)
    ensures Records(Added(deps, pairs), pairs)
  {
    if pairs == [] {
    } else {
      var before, last := pairs[..|pairs| - 1], pairs[|pairs| - 1];
      AddedRecords(deps, before);
      AddDependencyRecords(Added(deps, before), before, last);
      assert pairs == before + [last];
    }
  }

  lemma PairsOfSnoc(selected: seq<string>, project: string, deps: seq<string>, k: nat)
    requires k < |deps|
    ensures PairsOf(selected, project, deps[..k + 1])
         == if deps[k] in selected then PairsOf(selected, project, deps[..k]) + [(project, deps[k])]
            else PairsOf(selected, project, deps[..k])
  {
    assert deps[..k + 1][..k] == deps[..k];
  }

  lemma {:induction false} InMembers(pairs: seq<(string, string)>, p: string, q: string)
    ensures q in DependsIn(pairs, p) <==> (p, q) in pairs
    ensures q in RequiresIn(pairs, p) <==> (q, p) in pairs
  {
    if pairs == [] {
    } else {
      var n := |pairs| - 1;
      InMembers(pairs[..n], p, q);
      assert pairs == pairs[..n] + [pairs[n]];
    }
  }

  lemma {:induction false} PairsMembers(selected: seq<string>, project: string, deps: seq<string>, a: string, d: string)
    ensures (a, d) in PairsOf(selected, project, deps) <==> a == project && d in deps && d in selected
  {
    if deps == [] {
    } else {
      var n := |deps| - 1;
      PairsMembers(selected, project, deps[..n], a, d);
      assert deps == deps[..n] + [deps[n]];
    }
  }

  lemma {:induction false} SelectedPairsMembers(table: Table, selected: seq<string>, n: nat, a: string, d: string)
    requires n <= |selected|
    ensures (a, d) in SelectedPairs(table, selected, n) <==> (a, d) in SelectedEdges(table, selected, n)
  {
    if n == 0 {
    } else {
      SelectedPairsMembers(table, selected, n - 1, a, d);
      PairsMembers(selected, selected[n - 1], GetDependencies(table, selected[n - 1]), a, d);
    }
  }

  lemma RecordsDescribe(table: Table, selected: seq<string>, deps: Infos)
    requires Records(deps, SelectedPairs(table, selected, |selected|))
    ensures Describes(deps, SelectedEdges(table, selected, |selected|))
  {
    var pairs := SelectedPairs(table, selected, |selected|);
    forall p, q
      ensures q in DependsIn(pairs, p) <==> (p, q) in SelectedEdges(table, selected, |selected|)
      ensures q in RequiresIn(pairs, p) <==> (q, p) in SelectedEdges(table, selected, |selected|)
    {
      InMembers(pairs, p, q);
      SelectedPairsMembers(table, selected, |selected|, p, q);
      SelectedPairsMembers(table, selected, |selected|, q, p);
    }
    forall p | p in deps ensures RequiresIn(pairs, p) != [] ==> RequiresIn(pairs, p)[0] in RequiresIn(pairs, p) {
    }
  }

  lemma NoPairsIffNoEdges(table: Table, selected: seq<string>)
    ensures SelectedPairs(table, selected, |selected|) == [] <==> SelectedEdges(table, selected, |selected|) == {}
  {
    var pairs := SelectedPairs(table, selected, |selected|);
    forall a, d ensures (a, d) in pairs <==> (a, d) in SelectedEdges(table, selected, |selected|) {
      SelectedPairsMembers(table, selected, |selected|, a, d);
    }
    assert pairs != [] ==> (pairs[0].0, pairs[0].1) in pairs;
  }

  /** Projects in release order, their dependencies among the selection, and whether there are any. */
  method AnalyzeDependencies(table: Table, selected: seq<string>)
    returns (ordered: seq<string>, deps: Infos, hasDeps: bool)
    ensures deps.Keys == Elements(selected)
    ensures Records(deps, SelectedPairs(table, selected, |selected|))
    ensures Describes(deps, SelectedEdges(table, selected, |selected|))
    ensures forall p, d | p in deps ::
      d in deps[p].dependsOn <==> d in selected && p in table && d in table[p]
    ensures hasDeps <==> SelectedEdges(table, selected, |selected|) != {}
    ensures NoDuplicates(ordered) && Elements(ordered) == Elements(selected)
    ensures Ordered(DependencyGraph(deps), ordered)
  {
    deps, hasDeps := CollectDependencies(table, selected);
    RecordsDescribe(table, selected, deps);
    NoPairsIffNoEdges(table, selected);
    ordered := TopologicalSort(selected, deps);
    ghost var edges := SelectedEdges(table, selected, |selected|);
    ListedAreSelected(selected, deps, edges, ordered);
    forall p, d | p in deps ensures d in deps[p].dependsOn <==> d in selected && p in table && d in table[p] {
      SelectedEdgeIff(table, selected, p, d);
      assert p in Elements(selected);
    }
  }

  method CollectDependencies(table: Table, selected: seq<string>) returns (deps: Infos, hasDeps: bool)
    ensures deps.Keys == Elements(selected)
    ensures Records(deps, SelectedPairs(table, selected, |selected|))
    ensures hasDeps <==> SelectedPairs(table, selected, |selected|) != []
  {
    deps := map p | p in selected :: DependencyInfo(p, [], [], false);
    hasDeps := false;
    ghost var start := deps;
    for i := 0 to |selected|
      invariant deps == Added(start, SelectedPairs(table, selected, i))
      invariant hasDeps <==> SelectedPairs(table, selected, i) != []
    {
      var found;
      deps, found := AnalyzeProject(selected, selected[i], GetDependencies(table, selected[i]), deps, start,
                                    SelectedPairs(table, selected, i));
      hasDeps := hasDeps || found;
    }
    SelectedRecords(table, selected, start);
  }

  lemma SelectedRecords(table: Table, selected: seq<string>, start: Infos)
    requires start == map p | p in selected :: DependencyInfo(p, [], [], false)
    ensures Records(Added(start, SelectedPairs(table, selected, |selected|)),
      SelectedPairs(table, selected, |selected|))
  {
    var pairs := SelectedPairs(table, selected, |selected|);
    forall pair | pair in pairs ensures pair.0 in start && pair.1 in start {
      SelectedPairsMembers(table, selected, |selected|, pair.0, pair.1);
    }
    AddedRecords(start, pairs);
  }

  method AnalyzeProject(selected: seq<string>, project: string, projectDeps: seq<string>, before: Infos,
                        ghost start: Infos, ghost pairs: seq<(string, string)>)
    returns (deps: Infos, found: bool)
    requires project in selected && start.Keys == Elements(selected) && before == Added(start, pairs)
    ensures deps == Added(start, pairs + PairsOf(selected, project, projectDeps))
    ensures found <==> PairsOf(selected, project, projectDeps) != []
  {
    deps := before;
    found := false;
    ghost var all := pairs;
    assert pairs + PairsOf(selected, project, projectDeps[..0]) == pairs;
    for k := 0 to |projectDeps|
      invariant all == pairs + PairsOf(selected, project, projectDeps[..k])
      invariant deps == Added(start, all)
      invariant found <==> PairsOf(selected, project, projectDeps[..k]) != []
    {
      PairsOfSnoc(selected, project, projectDeps, k);
      if projectDeps[k] in selected {
        AddedSnoc(start, all, project, projectDeps[k]);
        deps := AddDependency(deps, project, projectDeps[k]);
        all := all + [(project, projectDeps[k])];
        found := true;
      }
    }
    assert projectDeps[..|projectDeps|] == projectDeps;
  }

  lemma ListedAreSelected(selected: seq<string>, deps: Infos, edges: set<(string, string)>, ordered: seq<string>)
    requires Describes(deps, edges) && forall a, b | (a, b) in edges :: b in selected
    requires forall p :: p in ordered <==> exists q :: q in selected && Leads(DependencyGraph(deps), q, p)
    ensures Elements(ordered) == Elements(selected)
  {
    var g := DependencyGraph(deps);
    forall a, d | Edge(g, a, d) ensures d in Elements(selected) {
      assert (a, d) in edges;
    }
    forall p | p in selected ensures p in ordered {
      LeadsStep(g, p, p);
    }
    forall p | p in ordered ensures p in Elements(selected) {
      var q :| q in selected && Leads(g, q, p);
      var path :| Path(g, path) && path[0] == q && path[|path| - 1] == p;
      ClosedUnderPaths(g, Elements(selected), path);
    }
  }

  // ---- The sort ----

  /** Each dependency comes first, unless it depends in turn, through others, on what needs it. */
  ghost predicate Ordered(g: Graph, order: seq<string>) {
    forall i | 0 <= i < |order| :: forall d | Edge(g, order[i], d) :: d in order[..i] || Leads(g, d, order[i])
  }

  lemma OrderedIsTopologicalIffAcyclic(g: Graph, order: seq<string>)
    requires Ordered(g, order) && NoDuplicates(order) && Elements(order) == g.Keys
    ensures Topological(g, order) <==> Acyclic(g)
  {
    if Acyclic(g) {
      forall i, d | 0 <= i < |order| && Edge(g, order[i], d) ensures d in order[..i] {
        assert !OnCycle(g, order[i]);
      }
    }
    if Topological(g, order) {
      assert forall a | a in g :: a in Elements(order);
      TopologicalIsAcyclic(g, order);
    }
  }

  class Sorter {
    const deps: Infos
    var visited: set<string>
    var result: seq<string>

    constructor (deps: Infos)
      ensures this.deps == deps && visited == {} && result == []
    {
      this.deps, visited, result := deps, {}, [];
    }

    ghost function Waiting(): set<string>
      reads this
    {
      visited - Elements(result)
    }

    /** While `on` is being visited: every project still waiting to be listed needs it. */
    ghost predicate Valid(on: string)
      reads this
    {
      var g := DependencyGraph(deps);
      && NoDuplicates(result) && Elements(result) <= visited
      && Ordered(g, result)
      && (forall p | p in Waiting() :: Leads(g, p, on))
      && forall p, d | p in result && Edge(g, p, d) :: d in visited
    }

    /**
     * Lists what `project` needs and, last, itself, unless it is visited already; the waiting projects stay the same.
     */
    method Visit(project: string)
      requires Valid(project)
      modifies this
      ensures Valid(project)
      ensures old(result) <= result && project in visited && old(visited) <= visited
      ensures Waiting() == old(Waiting())
      ensures forall p | p in result :: p in old(result) || Leads(DependencyGraph(deps), project, p)
      decreases deps.Keys - visited, 0
    {
      if project in visited { return; }
      ghost var g := DependencyGraph(deps);
      visited := visited + {project};
      LeadsStep(g, project, project);
      assert Waiting() == old(Waiting()) + {project};
      if project in deps {
        assert project in deps.Keys - old(visited);
        VisitDependencies(project);
      }
      assert project in Waiting();
      OrderedSnoc(g, result, project);
      NoDuplicatesSnoc(result, project);
      result := result + [project];
    }

    method VisitDependencies(project: string)
      requires Valid(project) && project in deps && project in visited
      modifies this
      ensures Valid(project)
      ensures old(result) <= result && old(visited) <= visited
      ensures Waiting() == old(Waiting())
      ensures forall p | p in result :: p in old(result) || Leads(DependencyGraph(deps), project, p)
      ensures forall d | Edge(DependencyGraph(deps), project, d) :: d in visited
      decreases deps.Keys - visited, 1
    {
      ghost var g := DependencyGraph(deps);
      for i := 0 to |deps[project].dependsOn|
        invariant Valid(project)
        invariant old(result) <= result && old(visited) <= visited
        invariant Waiting() == old(Waiting())
        invariant forall p | p in result :: p in old(result) || Leads(g, project, p)
        invariant forall d | d in deps[project].dependsOn[..i] :: d in visited
      {
        var dep := deps[project].dependsOn[i];
        assert Edge(g, project, dep);
        forall p ensures (Leads(g, dep, p) ==> Leads(g, project, p)) && (Leads(g, p, project) ==> Leads(g, p, dep)) {
          LeadsStep(g, project, p);
          LeadsStep(g, dep, dep);
          LeadsStep(g, project, dep);
          if Leads(g, p, project) { LeadsTransitive(g, p, project, dep); }
        }
        Visit(dep);
      }
    }
  }

  lemma OrderedSnoc(g: Graph, order: seq<string>, project: string)
    requires Ordered(g, order)
    requires forall d | Edge(g, project, d) :: d in order || Leads(g, d, project)
    ensures Ordered(g, order + [project])
  {
    var longer := order + [project];
    forall i, d | 0 <= i < |longer| && Edge(g, longer[i], d) ensures d in longer[..i] || Leads(g, d, longer[i]) {
      if i < |order| {
        assert longer[..i] == order[..i];
      } else {
        assert longer[..i] == order;
      }
    }
  }

  /** Terminates on any graph, and lists exactly the projects reached, each once. */
  method TopologicalSort(projects: seq<string>, deps: Infos) returns (result: seq<string>)
    ensures NoDuplicates(result)
    ensures forall p :: p in result <==> exists q :: q in projects && Leads(DependencyGraph(deps), q, p)
    ensures Ordered(DependencyGraph(deps), result)
  {
    ghost var g := DependencyGraph(deps);
    var sorter := new Sorter(deps);
    for i := 0 to |projects|
      invariant sorter.Valid("") && sorter.Waiting() == {}
      invariant forall q | q in projects[..i] :: q in sorter.result
      invariant forall p | p in sorter.result :: exists q :: q in projects && Leads(g, q, p)
    {
      assert projects[..i + 1] == projects[..i] + [projects[i]];
      sorter.Visit(projects[i]);
      assert projects[i] in sorter.Waiting() + Elements(sorter.result);
    }
    result := sorter.result;
    assert projects[..|projects|] == projects;
    assert sorter.visited == sorter.Waiting() + Elements(result);
    ReachedAreListed(g, projects, result);
  }

  lemma ReachedAreListed(g: Graph, projects: seq<string>, result: seq<string>)
    requires forall q | q in projects :: q in result
    requires forall p, d | p in result && Edge(g, p, d) :: d in Elements(result)
    ensures forall q, p | q in projects && Leads(g, q, p) :: p in result
  {
    forall q, p | q in projects && Leads(g, q, p) ensures p in result {
      var path :| Path(g, path) && path[0] == q && path[|path| - 1] == p;
      ClosedUnderPaths(g, Elements(result), path);
    }
  }

  lemma {:induction false} ClosedUnderPaths(g: Graph, closed: set<string>, path: seq<string>)
    requires Path(g, path) && path[0] in closed
    requires forall p, d | p in closed && Edge(g, p, d) :: d in closed
    ensures path[|path| - 1] in closed
    decreases |path|
  {
    if |path| <= 1 {
    } else {
      PathRest(g, path);
      ClosedUnderPaths(g, closed, path[1..]);
    }
  }

  // ---- The phases ----

  datatype Phase = First | Second | Third

  function PhaseOf(info: DependencyInfo): Phase {
    if info.needsWait then First else if info.dependsOn != [] then Second else Third
  }

  predicate HasPhase(deps: Infos, p: string, phase: Phase) {
    p in deps && PhaseOf(deps[p]) == phase
  }

  function InPhase(ordered: seq<string>, deps: Infos, phase: Phase): seq<string> {
    if ordered == [] then []
    else
      var n := |ordered| - 1;
      InPhase(ordered[..n], deps, phase) + if HasPhase(deps, ordered[n], phase) then [ordered[n]] else []
  }

  lemma {:induction false} InPhaseCounts(ordered: seq<string>, deps: Infos, phase: Phase, x: string)
    ensures multiset(InPhase(ordered, deps, phase))[x] == if HasPhase(deps, x, phase) then multiset(ordered)[x] else 0
  {
    if ordered == [] {
    } else {
      var n := |ordered| - 1;
      InPhaseCounts(ordered[..n], deps, phase, x);
      assert ordered == ordered[..n] + [ordered[n]];
    }
  }

  lemma InPhaseMembers(ordered: seq<string>, deps: Infos, phase: Phase, x: string)
    ensures x in InPhase(ordered, deps, phase) <==> x in ordered && HasPhase(deps, x, phase)
  {
    InPhaseCounts(ordered, deps, phase, x);
    assert x in multiset(ordered) <==> x in ordered;
    assert x in multiset(InPhase(ordered, deps, phase)) <==> x in InPhase(ordered, deps, phase);
  }

  method SplitByDependencyPhase(ordered: seq<string>, deps: Infos)
    returns (phase1: seq<string>, phase2: seq<string>, phase3: seq<string>)
    requires forall p | p in ordered :: p in deps
    ensures phase1 == InPhase(ordered, deps, First)
    ensures phase2 == InPhase(ordered, deps, Second)
    ensures phase3 == InPhase(ordered, deps, Third)
    ensures forall p | p in ordered ::
      && (p in phase1 <==> deps[p].needsWait)
      && (p in phase2 <==> !deps[p].needsWait && deps[p].dependsOn != [])
      && (p in phase3 <==> !deps[p].needsWait && deps[p].dependsOn == [])
  {
    phase1, phase2, phase3 := [], [], [];
    for i := 0 to |ordered|
      invariant phase1 == InPhase(ordered[..i], deps, First)
      invariant phase2 == InPhase(ordered[..i], deps, Second)
      invariant phase3 == InPhase(ordered[..i], deps, Third)
    {
      assert ordered[..i + 1][..i] == ordered[..i];
      var info := deps[ordered[i]];
      if info.needsWait {
        phase1 := phase1 + [ordered[i]];
      } else if |info.dependsOn| > 0 {
        phase2 := phase2 + [ordered[i]];
      } else {
        phase3 := phase3 + [ordered[i]];
      }
    }
    assert ordered[..|ordered|] == ordered;
    forall p | p in ordered
      ensures p in phase1 <==> deps[p].needsWait
      ensures p in phase2 <==> !deps[p].needsWait && deps[p].dependsOn != []
      ensures p in phase3 <==> !deps[p].needsWait && deps[p].dependsOn == []
    {
      InPhaseMembers(ordered, deps, First, p);
      InPhaseMembers(ordered, deps, Second, p);
      InPhaseMembers(ordered, deps, Third, p);
    }
  }

  function Phases(ordered: seq<string>, deps: Infos): seq<string> {
    InPhase(ordered, deps, First) + InPhase(ordered, deps, Second) + InPhase(ordered, deps, Third)
  }

  lemma NonEmptyHasMember(s: seq<string>)
    ensures s != [] ==> s[0] in s
  {
  }

  /** The phases split the order: each project is in exactly one, as often as it was listed. */
  lemma PhasesPartition(ordered: seq<string>, deps: Infos)
    requires forall p | p in ordered :: p in deps
    ensures multiset(Phases(ordered, deps)) == multiset(ordered)
  {
    forall x ensures multiset(Phases(ordered, deps))[x] == multiset(ordered)[x] {
      InPhaseCounts(ordered, deps, First, x);
      InPhaseCounts(ordered, deps, Second, x);
      InPhaseCounts(ordered, deps, Third, x);
      assert x in ordered <==> x in multiset(ordered);
    }
  }

  /** What another project depends on is released first, and waited for. */
  lemma DependenciesAreFirst(deps: Infos, edges: set<(string, string)>, ordered: seq<string>, p: string, d: string)
    requires Describes(deps, edges) && Elements(ordered) == deps.Keys
    requires forall a, b | (a, b) in edges :: b in deps
    requires p in deps && d in deps[p].dependsOn
    ensures d in InPhase(ordered, deps, First)
  {
    assert (p, d) in edges;
    assert d in Elements(ordered);
    InPhaseMembers(ordered, deps, First, d);
  }

  /** A phase keeps the order: the first-phase dependencies of its projects stay ahead. */
  lemma {:induction false} FirstPhaseKeepsOrder(g: Graph, ordered: seq<string>, deps: Infos)
    requires Topological(g, ordered)
    requires forall p, d | Edge(g, p, d) :: HasPhase(deps, d, First)
    ensures Topological(g, InPhase(ordered, deps, First))
  {
    if ordered == [] {
    } else {
      var n := |ordered| - 1;
      var before, last := ordered[..n], ordered[n];
      assert ordered == before + [last];
      TopologicalPrefix(g, before, last);
      FirstPhaseKeepsOrder(g, before, deps);
      var kept := InPhase(before, deps, First);
      forall d | Edge(g, last, d) ensures d in kept {
        InPhaseMembers(before, deps, First, d);
      }
      TopologicalAppend(g, kept, [last]);
      assert InPhase(ordered, deps, First) == if HasPhase(deps, last, First) then kept + [last] else kept;
    }
  }

  lemma TopologicalPrefix(g: Graph, before: seq<string>, last: string)
    requires Topological(g, before + [last])
    ensures Topological(g, before)
    ensures forall d | Edge(g, last, d) :: d in before
  {
    var order := before + [last];
    forall i, d | 0 <= i < |before| && Edge(g, before[i], d) ensures d in before[..i] {
      assert before[..i] == order[..i] && before[i] == order[i];
    }
    assert order[..|before|] == before && order[|before|] == last;
  }

  lemma TopologicalAppend(g: Graph, order: seq<string>, more: seq<string>)
    requires Topological(g, order)
    requires forall p, d | p in more && Edge(g, p, d) :: d in order
    ensures Topological(g, order + more)
  {
    var all := order + more;
    forall i, d | 0 <= i < |all| && Edge(g, all[i], d) ensures d in all[..i] {
      if i < |order| {
        assert all[..i] == order[..i];
      } else {
        assert all[i] in more;
        assert order <= all[..i];
      }
    }
  }

  /** Run one after the other, the phases are still a release order. */
  lemma PhasesTopological(ordered: seq<string>, deps: Infos, edges: set<(string, string)>)
    requires Describes(deps, edges) && Elements(ordered) == deps.Keys
    requires forall a, b | (a, b) in edges :: b in deps
    requires forall p | p in ordered :: p in deps
    requires Topological(DependencyGraph(deps), ordered)
    ensures Topological(DependencyGraph(deps), Phases(ordered, deps))
  {
    var g := DependencyGraph(deps);
    var first := InPhase(ordered, deps, First);
    forall p, d | Edge(g, p, d) ensures d in first && HasPhase(deps, d, First) {
      DependenciesAreFirst(deps, edges, ordered, p, d);
      InPhaseMembers(ordered, deps, First, d);
    }
    FirstPhaseKeepsOrder(g, ordered, deps);
    TopologicalAppend(g, first, InPhase(ordered, deps, Second));
    TopologicalAppend(g, first + InPhase(ordered, deps, Second), InPhase(ordered, deps, Third));
  }

  /** Acyclic tables order every selection: the phases are a topological order of the selected projects, each once. */
  method PlanRelease(table: Table, selected: seq<string>)
    returns (phase1: seq<string>, phase2: seq<string>, phase3: seq<string>, deps: Infos)
    ensures var phases := phase1 + phase2 + phase3;
      && NoDuplicates(phases) && Elements(phases) == Elements(selected)
      && (Topological(DependencyGraph(deps), phases) <==> Acyclic(DependencyGraph(deps)))
    ensures Describes(deps, SelectedEdges(table, selected, |selected|)) && deps.Keys == Elements(selected)
    ensures forall p | p in phase2 :: p in deps && forall d | d in deps[p].dependsOn :: d in phase1
    ensures forall p | p in phase3 :: p in deps && deps[p].dependsOn == [] && deps[p].requiredBy == []
  {
    var ordered, hasDeps;
    ordered, deps, hasDeps := AnalyzeDependencies(table, selected);
    assert forall p | p in ordered :: p in Elements(selected);
    phase1, phase2, phase3 := SplitByDependencyPhase(ordered, deps);
    PhasesCorrect(table, selected, ordered, deps);
  }

  lemma PhasesCorrect(table: Table, selected: seq<string>, ordered: seq<string>, deps: Infos)
    requires Describes(deps, SelectedEdges(table, selected, |selected|)) && deps.Keys == Elements(selected)
    requires NoDuplicates(ordered) && Elements(ordered) == deps.Keys && Ordered(DependencyGraph(deps), ordered)
    requires forall p | p in ordered :: p in deps
    ensures NoDuplicates(Phases(ordered, deps)) && Elements(Phases(ordered, deps)) == Elements(selected)
    ensures Topological(DependencyGraph(deps), Phases(ordered, deps)) <==> Acyclic(DependencyGraph(deps))
    ensures forall p | p in InPhase(ordered, deps, Second) ::
      p in deps && forall d | d in deps[p].dependsOn :: d in InPhase(ordered, deps, First)
    ensures forall p | p in InPhase(ordered, deps, Third) ::
      p in deps && deps[p].dependsOn == [] && deps[p].requiredBy == []
  {
    var edges, phases := SelectedEdges(table, selected, |selected|), Phases(ordered, deps);
    PhasesPartition(ordered, deps);
    SameMultisetNoDuplicates(ordered, phases);
    SameMultisetMembers(ordered, phases);
    assert Elements(phases) == Elements(ordered);
    PhasesTopologicalIff(ordered, deps, edges, phases);
    LaterPhases(deps, edges, ordered);
  }

  lemma PhasesTopologicalIff(ordered: seq<string>, deps: Infos, edges: set<(string, string)>, phases: seq<string>)
    requires Describes(deps, edges) && Elements(ordered) == deps.Keys
    requires forall a, b | (a, b) in edges :: b in deps
    requires forall p | p in ordered :: p in deps
    requires NoDuplicates(ordered) && Ordered(DependencyGraph(deps), ordered)
    requires phases == Phases(ordered, deps) && NoDuplicates(phases) && Elements(phases) == deps.Keys
    ensures Topological(DependencyGraph(deps), phases) <==> Acyclic(DependencyGraph(deps))
  {
    var g := DependencyGraph(deps);
    OrderedIsTopologicalIffAcyclic(g, ordered);
    if Acyclic(g) {
      PhasesTopological(ordered, deps, edges);
    }
    if Topological(g, phases) {
      assert forall p | p in g :: p in Elements(phases);
      TopologicalIsAcyclic(g, phases);
    }
  }

  lemma LaterPhases(deps: Infos, edges: set<(string, string)>, ordered: seq<string>)
    requires Describes(deps, edges) && Elements(ordered) == deps.Keys
    requires forall a, b | (a, b) in edges :: b in deps
    ensures forall p | p in InPhase(ordered, deps, Second) ::
      p in deps && forall d | d in deps[p].dependsOn :: d in InPhase(ordered, deps, First)
    ensures forall p | p in InPhase(ordered, deps, Third) ::
      p in deps && deps[p].dependsOn == [] && deps[p].requiredBy == []
  {
    forall p, d | p in InPhase(ordered, deps, Second) && p in deps && d in deps[p].dependsOn
      ensures d in InPhase(ordered, deps, First)
    {
      DependenciesAreFirst(deps, edges, ordered, p, d);
    }
    forall p | p in InPhase(ordered, deps, Second) ensures p in deps {
      InPhaseMembers(ordered, deps, Second, p);
    }
    forall p | p in InPhase(ordered, deps, Third)
      ensures p in deps && deps[p].dependsOn == [] && deps[p].requiredBy == []
    {
      InPhaseMembers(ordered, deps, Third, p);
      NonEmptyHasMember(deps[p].requiredBy);
    }
  }

  /** The shipped table has no cycle, whatever is selected. */
  lemma ShippedTableIsAcyclic(deps: Infos, selected: seq<string>)
    requires Describes(deps, SelectedEdges(PROJECT_DEPENDENCIES, selected, |selected|))
    requires deps.Keys == Elements(selected)
    ensures Acyclic(DependencyGraph(deps))
  {
    var g := DependencyGraph(deps);
    forall m, n | Edge(g, m, n) ensures n in {"cbt", "lab"} && m !in {"cbt", "lab"} {
      assert (m, n) in SelectedEdges(PROJECT_DEPENDENCIES, selected, |selected|);
    }
    forall m, n | Edge(g, m, n) ensures !Leads(g, n, m) {
      LeadsStep(g, n, m);
    }
  }
}
