/** Resolving and flattening a model's dependencies (pkg/seeddata/dependencies.go). */
module Dependencies {
  import opened Common
  import opened Graphs

  datatype Kind = External | Transformation
  datatype Dependency = Dependency(kind: Kind, name: string)
  datatype Tree = Tree(model: string, kind: Kind, dependencies: seq<Dependency>, children: map<string, Tree>)
  datatype ResolveError = Circular(model: string) | BadDependencies(model: string) | ModelNotFound(model: string)

  /**
   * The models directories: the dependency strings of each transformation (None when unreadable), and the externals.
   */
  datatype Repo = Repo(transformations: map<string, Option<seq<string>>>, externals: set<string>)

  // ---- Dependency strings ----

  const TRANSFORMATION_PREFIX := "{{transformation}}."
  const EXTERNAL_PREFIX := "{{external}}."

  predicate IsLetter(c: char) { 'a' <= c <= 'z' || 'A' <= c <= 'Z' || c == '_' }

  predicate IsIdentifier(s: string) {
    s != "" && IsLetter(s[0]) && forall i | 0 <= i < |s| :: IsLetter(s[i]) || '0' <= s[i] <= '9'
  }

  function BeforeDot(s: string): string {
    if s == "" || s[0] == '.' then "" else [s[0]] + BeforeDot(s[1..])
  }

  /** What follows the type prefix: at least one character, and no line break. */
  predicate IsModelName(s: string) { s != "" && '\n' !in s }

  function ParseDependencyString(s: string): Option<Dependency> {
    var database := BeforeDot(s);
    var table := s[if |database| + 1 <= |s| then |database| + 1 else |s|..];
    if HasPrefix(s, TRANSFORMATION_PREFIX) && IsModelName(s[|TRANSFORMATION_PREFIX|..]) then
      Some(Dependency(Transformation, s[|TRANSFORMATION_PREFIX|..]))
    else if HasPrefix(s, EXTERNAL_PREFIX) && IsModelName(s[|EXTERNAL_PREFIX|..]) then
      Some(Dependency(External, s[|EXTERNAL_PREFIX|..]))
    else if s == database + "." + table && IsIdentifier(database) && IsIdentifier(table) then
      Some(Dependency(External, database + "_" + table))
    else None
  }

  function ParseAll(strings: seq<string>): Option<seq<Dependency>> {
    if strings == [] then Some([])
    else
      var n := |strings| - 1;
      match (ParseAll(strings[..n]), ParseDependencyString(strings[n])) {
        case (Some(deps), Some(dep)) => Some(deps + [dep])
        case _ => None
      }
  }

  lemma {:induction false} ParseAllPrefix(strings: seq<string>, n: nat)
    requires n <= |strings| && ParseAll(strings[..n]).None?
    ensures ParseAll(strings).None?
    decreases |strings| - n
  {
    if n < |strings| {
      assert strings[..n + 1][..n] == strings[..n];
      ParseAllPrefix(strings, n + 1);
    } else {
      assert strings[..n] == strings;
    }
  }

  /** The three formats: `{{transformation}}.name`, `{{external}}.name`, and `database.table` for an external. */
  ghost predicate Reads(s: string, d: Dependency) {
    || (d.kind == Transformation && IsModelName(d.name) && s == TRANSFORMATION_PREFIX + d.name)
    || (d.kind == External && IsModelName(d.name) && s == EXTERNAL_PREFIX + d.name)
    || (d.kind == External && exists db, table :: ReadsTable(s, db, table) && d.name == db + "_" + table)
  }

  ghost predicate ReadsTable(s: string, db: string, table: string) {
    IsIdentifier(db) && IsIdentifier(table) && s == db + "." + table
  }

  lemma {:induction false} BeforeDotOf(db: string, table: string)
    requires '.' !in db
    ensures BeforeDot(db + "." + table) == db
  {
    if db != "" {
      assert (db + "." + table)[1..] == db[1..] + "." + table;
      BeforeDotOf(db[1..], table);
    }
  }

  /** A name in another database is an external one: `observoor.disk_bytes` is the external `observoor_disk_bytes`. */
  lemma ParsesTable(db: string, table: string)
    requires IsIdentifier(db) && IsIdentifier(table)
    ensures ParseDependencyString(db + "." + table) == Some(Dependency(External, db + "_" + table))
  {
    var s := db + "." + table;
    BeforeDotOf(db, table);
    assert s[0] == db[0] && IsLetter(s[0]);
    assert s[|db| + 1..] == table;
  }

  lemma ParsesPrefixed(name: string)
    requires IsModelName(name)
    ensures ParseDependencyString(TRANSFORMATION_PREFIX + name) == Some(Dependency(Transformation, name))
    ensures ParseDependencyString(EXTERNAL_PREFIX + name) == Some(Dependency(External, name))
  {
    assert (EXTERNAL_PREFIX + name)[2] == 'e';
  }

  lemma ParsedReads(s: string)
    requires ParseDependencyString(s).Some?
    ensures Reads(s, ParseDependencyString(s).value)
  {
    var db := BeforeDot(s);
    if |db| + 1 <= |s| && s == db + "." + s[|db| + 1..] && IsIdentifier(db) && IsIdentifier(s[|db| + 1..]) {
      assert ReadsTable(s, db, s[|db| + 1..]);
    }
  }

  /** A string is read as the dependency that one of the formats makes of it, and refused when it has none of them. */
  lemma ParsesIff(s: string, d: Dependency)
    ensures ParseDependencyString(s) == Some(d) <==> Reads(s, d)
  {
    if ParseDependencyString(s).Some? { ParsedReads(s); }
    if Reads(s, d) {
      if IsModelName(d.name) { ParsesPrefixed(d.name); }
      if db, table :| ReadsTable(s, db, table) && d.name == db + "_" + table { ParsesTable(db, table); }
    }
  }

  /** The list is read when every string is, in the same order. */
  lemma {:induction false} ParseAllIff(strings: seq<string>, deps: seq<Dependency>)
    ensures ParseAll(strings) == Some(deps)
            <==> |deps| == |strings| && forall i | 0 <= i < |deps| :: ParseDependencyString(strings[i]) == Some(deps[i])
    decreases |strings|
  {
    if strings == [] {
    } else {
      var n := |strings| - 1;
      if |deps| == |strings| {
        ParseAllIff(strings[..n], deps[..n]);
        assert deps == deps[..n] + [deps[n]];
      }
      if ParseAll(strings[..n]).Some? { ParseAllIff(strings[..n], ParseAll(strings[..n]).value); }
    }
  }

  lemma RefusesTable(db: string, table: string)
    requires '.' !in db && db != "" && db[0] != '{'
    requires !IsIdentifier(db) || !IsIdentifier(table)
    ensures ParseDependencyString(db + "." + table) == None
  {
    var s := db + "." + table;
    BeforeDotOf(db, table);
    assert s[0] == db[0];
    assert s[|db| + 1..] == table;
  }

  /** The formats by example. */
  lemma PrefixedByExample()
    ensures ParseDependencyString("{{transformation}}.a") == Some(Dependency(Transformation, "a"))
    ensures ParseDependencyString("{{external}}.a.b") == Some(Dependency(External, "a.b"))
  {
    ParsesPrefixed("a");
    assert TRANSFORMATION_PREFIX + "a" == "{{transformation}}.a";
    ParsesPrefixed("a.b");
    assert EXTERNAL_PREFIX + "a.b" == "{{external}}.a.b";
  }

  lemma ReadAsTable(s: string, db: string, table: string, name: string)
    requires IsIdentifier(db) && IsIdentifier(table) && s == db + "." + table && name == db + "_" + table
    ensures ParseDependencyString(s) == Some(Dependency(External, name))
  {
    ParsesTable(db, table);
  }

  lemma TablesByExample()
    ensures ParseDependencyString("obs.disk") == Some(Dependency(External, "obs_disk"))
  {
    ReadAsTable("obs.disk", "obs", "disk", "obs_disk");
  }

  lemma IdentifiersByExample()
    ensures ParseDependencyString("_A9.Zz") == Some(Dependency(External, "_A9_Zz"))
    ensures ParseDependencyString("a0.z") == Some(Dependency(External, "a0_z"))
  {
    ReadAsTable("_A9.Zz", "_A9", "Zz", "_A9_Zz");
    ReadAsTable("a0.z", "a0", "z", "a0_z");
  }

  /** A name after a prefix is not empty and holds no line break. */
  lemma ModelNamesByExample()
    ensures IsModelName("a") && IsModelName("a b") && !IsModelName("") && !IsModelName("a\n")
  {
    assert "a\n"[1] == '\n';
  }

  /** What has none of the formats, by example. */
  lemma RefusedByExample()
    ensures ParseDependencyString("fct_block") == None
    ensures ParseDependencyString("1a.b") == None == ParseDependencyString("a.1b")
    ensures ParseDependencyString("a-b.c") == None == ParseDependencyString("a.b.c")
  {
    RefusesTable("1a", "b");
    assert "1a.b" == "1a" + "." + "b";
    RefusesTable("a", "1b");
    assert "a.1b" == "a" + "." + "1b";
    assert !IsLetter("a-b"[1]);
    RefusesTable("a-b", "c");
    assert "a-b.c" == "a-b" + "." + "c";
    assert !IsLetter("b.c"[1]);
    RefusesTable("a", "b.c");
    assert "a.b.c" == "a" + "." + "b.c";
    forall d ensures !Reads("fct_block", d) {
      forall db, table ensures !ReadsTable("fct_block", db, table) {
        assert (db + "." + table)[|db|] == '.';
      }
    }
    if ParseDependencyString("fct_block").Some? { ParsedReads("fct_block"); }
  }

  /** The dependencies a transformation declares; None when its file or one of its strings is bad. */
  function Declared(repo: Repo, model: string): Option<seq<Dependency>>
    requires model in repo.transformations
  {
    match repo.transformations[model]
    case None => None
    case Some(strings) => ParseAll(strings)
  }

  // ---- The resolver's meaning ----

  function ExternalLeaf(model: string): Tree { Tree(model, External, [], map[]) }

  /** The tree of `model` when the models `visited` are on the path to it. */
  function Resolve(repo: Repo, model: string, visited: set<string>): Result<Tree, ResolveError>
    decreases repo.transformations.Keys - visited, 0
  {
    if model in visited then Err(Circular(model))
    else if model in repo.transformations then
      assert model in repo.transformations.Keys - visited;
      match Declared(repo, model) {
        case None => Err(BadDependencies(model))
        case Some(deps) =>
          match ResolveAll(repo, deps, visited + {model}) {
            case Err(e) => Err(e)
            case Ok(children) => Ok(Tree(model, Transformation, deps, children))
          }
      }
    else if model in repo.externals then Ok(ExternalLeaf(model))
    else Err(ModelNotFound(model))
  }

  function ResolveAll(repo: Repo, deps: seq<Dependency>, visited: set<string>): Result<map<string, Tree>, ResolveError>
    decreases repo.transformations.Keys - visited, |deps|
  {
    if deps == [] then Ok(map[])
    else
      var dep := deps[|deps| - 1];
      match ResolveAll(repo, deps[..|deps| - 1], visited) {
        case Err(e) => Err(e)
        case Ok(children) =>
          match dep.kind {
            case External => Ok(children[dep.name := ExternalLeaf(dep.name)])
            case Transformation =>
              match Resolve(repo, dep.name, visited) {
                case Err(e) => Err(e)
                case Ok(tree) => Ok(children[dep.name := tree])
              }
          }
      }
  }

  lemma {:induction false} ResolveAllPrefix(repo: Repo, deps: seq<Dependency>, visited: set<string>, n: nat)
    requires n <= |deps| && ResolveAll(repo, deps[..n], visited).Err?
    ensures ResolveAll(repo, deps, visited) == ResolveAll(repo, deps[..n], visited)
    decreases |deps| - n
  {
    if n < |deps| {
      assert deps[..n + 1][..n] == deps[..n];
      ResolveAllPrefix(repo, deps, visited, n + 1);
    } else {
      assert deps[..n] == deps;
    }
  }

  // ---- The resolver ----

  method ParseDependencies(strings: Option<seq<string>>) returns (r: Option<seq<Dependency>>)
    ensures r == match strings case None => None case Some(s) => ParseAll(s)
  {
    if strings.None? { return None; }
    var deps: seq<Dependency> := [];
    for i := 0 to |strings.value|
      invariant ParseAll(strings.value[..i]) == Some(deps)
    {
      var dep := ParseDependencyString(strings.value[i]);
      assert strings.value[..i + 1][..i] == strings.value[..i];
      if dep.None? {
        ParseAllPrefix(strings.value, i + 1);
        return None;
      }
      deps := deps + [dep.value];
    }
    assert strings.value[..|strings.value|] == strings.value;
    return Some(deps);
  }

  class Resolver {
    const repo: Repo
    var visited: map<string, bool>

    constructor (repo: Repo)
      ensures this.repo == repo && OnPath() == {}
    {
      this.repo, visited := repo, map[];
    }

    ghost function OnPath(): set<string>
      reads this
    {
      set m | m in visited && visited[m]
    }

    /** Whatever the outcome, the path marks are as they were. */
    method ResolveDependencyTree(model: string) returns (r: Result<Tree, ResolveError>)
      modifies this
      ensures r == Resolve(repo, model, old(OnPath()))
      ensures OnPath() == old(OnPath())
      decreases repo.transformations.Keys - OnPath(), 0
    {
      if model in visited && visited[model] { return Err(Circular(model)); }
      ghost var before := OnPath();
      visited := visited[model := true];
      assert OnPath() == before + {model};
      if model in repo.transformations {
        assert model in repo.transformations.Keys - before;
        r := ResolveTransformationTree(model);
      } else if model in repo.externals {
        r := Ok(ExternalLeaf(model));
      } else {
        r := Err(ModelNotFound(model));
      }
      visited := visited[model := false];
      assert OnPath() == before;
    }

    method ResolveTransformationTree(model: string) returns (r: Result<Tree, ResolveError>)
      requires model in repo.transformations
      modifies this
      ensures OnPath() == old(OnPath())
      ensures r == match Declared(repo, model)
                   case None => Err(BadDependencies(model))
                   case Some(deps) => match ResolveAll(repo, deps, old(OnPath()))
                     case Err(e) => Err(e)
                     case Ok(children) => Ok(Tree(model, Transformation, deps, children))
      decreases repo.transformations.Keys - OnPath(), 1
    {
      var parsed := ParseDependencies(repo.transformations[model]);
      if parsed.None? { return Err(BadDependencies(model)); }
      var deps := parsed.value;
      var children: map<string, Tree> := map[];
      for i := 0 to |deps|
        invariant OnPath() == old(OnPath())
        invariant ResolveAll(repo, deps[..i], OnPath()) == Ok(children)
      {
        assert deps[..i + 1][..i] == deps[..i];
        var dep := deps[i];
        var child := Ok(ExternalLeaf(dep.name));
        if dep.kind == Transformation {
          child := ResolveDependencyTree(dep.name);
          if child.Err? {
            ResolveAllPrefix(repo, deps, OnPath(), i + 1);
            return Err(child.error);
          }
        }
        children := children[dep.name := child.value];
      }
      assert deps[..|deps|] == deps;
      return Ok(Tree(model, Transformation, deps, children));
    }
  }

  // ---- When resolution succeeds ----

  /** The transformation dependencies that the readable models declare. */
  ghost function DeclaredGraph(repo: Repo): Graph {
    map m | m in repo.transformations && Declared(repo, m).Some? ::
      set d | d in Declared(repo, m).value && d.kind == Transformation :: d.name
  }

  lemma DeclaresIff(repo: Repo, a: string, b: string)
    ensures Edge(DeclaredGraph(repo), a, b) <==>
      a in repo.transformations && Declared(repo, a).Some? && Dependency(Transformation, b) in Declared(repo, a).value
  {
  }

  /** The model exists and its dependency strings can be read. */
  predicate Sound(repo: Repo, model: string) {
    if model in repo.transformations then Declared(repo, model).Some? else model in repo.externals
  }

  ghost predicate GoodPath(repo: Repo, p: seq<string>, visited: set<string>) {
    p != [] && NoDuplicates(p) && Elements(p) !! visited && Sound(repo, p[|p| - 1])
  }

  lemma {:induction false} ResolveAllSucceedsIff(repo: Repo, deps: seq<Dependency>, visited: set<string>)
    ensures ResolveAll(repo, deps, visited).Ok?
            <==> forall d | d in deps && d.kind == Transformation :: Resolve(repo, d.name, visited).Ok?
    decreases |deps|
  {
    if deps == [] {
    } else {
      var n := |deps| - 1;
      ResolveAllSucceedsIff(repo, deps[..n], visited);
      assert deps == deps[..n] + [deps[n]];
    }
  }

  lemma NoDuplicatesCons(x: string, rest: seq<string>)
    ensures NoDuplicates([x] + rest) <==> NoDuplicates(rest) && x !in rest
  {
    var all := [x] + rest;
    assert forall i | 0 <= i < |rest| :: all[i + 1] == rest[i];
    if NoDuplicates(rest) && x !in rest {
      forall i, j | 0 <= i < j < |all| ensures all[i] != all[j] {
        assert all[j] == rest[j - 1];
        assert i > 0 ==> all[i] == rest[i - 1];
      }
    }
    if NoDuplicates(all) {
      forall i | 0 <= i < |rest| ensures rest[i] != x {
        assert all[0] != all[i + 1];
      }
    }
  }

  lemma GoodCons(repo: Repo, model: string, rest: seq<string>, visited: set<string>)
    requires rest != [] && model !in visited
    ensures GoodPath(repo, [model] + rest, visited) <==> GoodPath(repo, rest, visited + {model})
  {
    var p := [model] + rest;
    assert p[|p| - 1] == rest[|rest| - 1];
    NoDuplicatesCons(model, rest);
    assert Elements(p) == {model} + Elements(rest);
    assert model !in rest <==> model !in Elements(rest);
  }

  /** Success means that every chain of dependencies is free of cycles, of marked models and of bad models. */
  lemma {:induction false} ResolvesIffPathsGood(repo: Repo, model: string, visited: set<string>)
    ensures Resolve(repo, model, visited).Ok?
            <==> forall p | Path(DeclaredGraph(repo), p) && p[0] == model :: GoodPath(repo, p, visited)
    decreases repo.transformations.Keys - visited
  {
    var g := DeclaredGraph(repo);
    assert Path(g, [model]);
    if model !in visited {
      if model in repo.transformations && Declared(repo, model).Some? {
        var deps := Declared(repo, model).value;
        var deeper := visited + {model};
        assert model in repo.transformations.Keys - visited;
        ResolveAllSucceedsIff(repo, deps, deeper);
        forall d | d in deps && d.kind == Transformation
          ensures Resolve(repo, d.name, deeper).Ok?
                  <==> forall p | Path(g, p) && p[0] == d.name :: GoodPath(repo, p, deeper)
        {
          ResolvesIffPathsGood(repo, d.name, deeper);
        }
        PathsGoodStep(repo, model, visited, deps);
      } else {
        forall p | Path(g, p) && p[0] == model ensures p == [model] {
          assert |p| > 1 ==> Edge(g, p[0], p[0 + 1]);
        }
        assert GoodPath(repo, [model], visited) <==> Resolve(repo, model, visited).Ok?;
      }
    } else {
      assert model in Elements([model]);
      assert !GoodPath(repo, [model], visited);
    }
  }

  lemma PathsGoodStep(repo: Repo, model: string, visited: set<string>, deps: seq<Dependency>)
    requires model !in visited && model in repo.transformations && Declared(repo, model) == Some(deps)
    ensures var g := DeclaredGraph(repo);
      (forall p | Path(g, p) && p[0] == model :: GoodPath(repo, p, visited))
      <==> forall d, q | d in deps && d.kind == Transformation && Path(g, q) && q[0] == d.name ::
             GoodPath(repo, q, visited + {model})
  {
    var g := DeclaredGraph(repo);
    if forall p | Path(g, p) && p[0] == model :: GoodPath(repo, p, visited) {
      forall d, q | d in deps && d.kind == Transformation && Path(g, q) && q[0] == d.name
        ensures GoodPath(repo, q, visited + {model})
      {
        assert d == Dependency(Transformation, q[0]);
        DeclaresIff(repo, model, q[0]);
        PathCons(g, model, q);
        GoodCons(repo, model, q, visited);
      }
    }
    if forall d, q | d in deps && d.kind == Transformation && Path(g, q) && q[0] == d.name ::
        GoodPath(repo, q, visited + {model})
    {
      forall p | Path(g, p) && p[0] == model ensures GoodPath(repo, p, visited) {
        if |p| > 1 {
          PathRest(g, p);
          DeclaresIff(repo, model, p[1]);
          assert Dependency(Transformation, p[1]).name == p[1..][0];
          GoodCons(repo, model, p[1..], visited);
          assert p == [model] + p[1..];
        } else {
          assert p == [model];
        }
      }
    }
  }

  /** The resolver succeeds exactly when no cycle, missing model or bad dependency string can be reached. */
  lemma ResolvesIff(repo: Repo, model: string)
    ensures var g := DeclaredGraph(repo);
      Resolve(repo, model, {}).Ok? <==> forall m | Leads(g, model, m) :: Sound(repo, m) && !OnCycle(g, m)
  {
    var g := DeclaredGraph(repo);
    ResolvesIffPathsGood(repo, model, {});
    if forall p | Path(g, p) && p[0] == model :: GoodPath(repo, p, {}) {
      forall m | Leads(g, model, m) ensures Sound(repo, m) && !OnCycle(g, m) {
        var p :| Path(g, p) && p[0] == model && p[|p| - 1] == m;
        assert GoodPath(repo, p, {});
        forall n | Edge(g, m, n) ensures !Leads(g, n, m) {
          forall q | Path(g, q) && q[0] == n ensures q[|q| - 1] != m {
            PathConcat(g, p, q);
            assert (p + q)[0] == model;
            LastDiffers(p, q);
          }
        }
      }
    }
    if forall m | Leads(g, model, m) :: Sound(repo, m) && !OnCycle(g, m) {
      forall p | Path(g, p) && p[0] == model ensures GoodPath(repo, p, {}) {
        assert Leads(g, model, p[|p| - 1]);
        forall i, j | 0 <= i < j < |p| ensures p[i] != p[j] {
          PathSegment(g, p, 0, i);
          PathSegment(g, p, i + 1, j);
          assert !OnCycle(g, p[i]) && Edge(g, p[i], p[i + 1]);
        }
      }
    }
  }

  /** A failure names the model at fault, and where it stands. */
  ghost predicate Blames(repo: Repo, model: string, visited: set<string>, e: ResolveError) {
    && Leads(DeclaredGraph(repo), model, e.model)
    && match e
       case Circular(x) => x in visited || OnCycle(DeclaredGraph(repo), x)
       case BadDependencies(x) => x in repo.transformations && Declared(repo, x) == None
       case ModelNotFound(x) => x !in repo.transformations && x !in repo.externals
  }

  lemma {:induction false} FailsInOne(repo: Repo, deps: seq<Dependency>, visited: set<string>) returns (d: Dependency)
    requires ResolveAll(repo, deps, visited).Err?
    ensures d in deps && d.kind == Transformation
    ensures Resolve(repo, d.name, visited) == Err(ResolveAll(repo, deps, visited).error)
    decreases |deps|
  {
    var n := |deps| - 1;
    if ResolveAll(repo, deps[..n], visited).Err? {
      d := FailsInOne(repo, deps[..n], visited);
    } else {
      d := deps[n];
    }
  }

  lemma {:induction false} FailureBlames(repo: Repo, model: string, visited: set<string>)
    requires Resolve(repo, model, visited).Err?
    ensures Blames(repo, model, visited, Resolve(repo, model, visited).error)
    decreases repo.transformations.Keys - visited
  {
    var g := DeclaredGraph(repo);
    LeadsStep(g, model, model);
    if model !in visited && model in repo.transformations && Declared(repo, model).Some? {
      assert model in repo.transformations.Keys - visited;
      var d := FailsInOne(repo, Declared(repo, model).value, visited + {model});
      FailureBlames(repo, d.name, visited + {model});
      DeclaresIff(repo, model, d.name);
      var e := Resolve(repo, model, visited).error;
      LeadsStep(g, model, e.model);
      assert e.model == model && Leads(g, d.name, model) ==> OnCycle(g, model);
    }
  }

  lemma LastDiffers(p: seq<string>, q: seq<string>)
    requires p != [] && q != [] && NoDuplicates(p + q)
    ensures q[|q| - 1] != p[|p| - 1]
  {
    assert (p + q)[|p| - 1] == p[|p| - 1] && (p + q)[|p + q| - 1] == q[|q| - 1];
  }

  /** Fewer marks change neither success nor the tree. */
  lemma {:induction false} SmallerVisited(repo: Repo, model: string, visited: set<string>, fewer: set<string>)
    requires fewer <= visited && Resolve(repo, model, visited).Ok?
    ensures Resolve(repo, model, fewer) == Resolve(repo, model, visited)
    decreases repo.transformations.Keys - visited, 0
  {
    if model !in repo.transformations {
    } else {
      assert model in repo.transformations.Keys - visited;
      SmallerVisitedAll(repo, Declared(repo, model).value, visited + {model}, fewer + {model});
    }
  }

  lemma {:induction false} SmallerVisitedAll(
      repo: Repo, deps: seq<Dependency>, visited: set<string>, fewer: set<string>)
    requires fewer <= visited && ResolveAll(repo, deps, visited).Ok?
    ensures ResolveAll(repo, deps, fewer) == ResolveAll(repo, deps, visited)
    decreases repo.transformations.Keys - visited, |deps|
  {
    if deps == [] {
    } else {
      var dep := deps[|deps| - 1];
      SmallerVisitedAll(repo, deps[..|deps| - 1], visited, fewer);
      if dep.kind == Transformation {
        SmallerVisited(repo, dep.name, visited, fewer);
      }
    }
  }

  // ---- Flattening a tree ----

  ghost function ExternalsOf(t: Tree): set<string>
    decreases t, 1
  {
    if t.kind == External then {t.model}
    else ExternalsUnder(t, t.children.Keys)
  }

  ghost function ExternalsUnder(t: Tree, keys: set<string>): set<string>
    requires keys <= t.children.Keys
    decreases t, 0
  {
    set k, x | k in keys && x in ExternalsOf(t.children[k]) :: x
  }

  ghost function TransformationsUnder(t: Tree, keys: set<string>): set<string>
    requires keys <= t.children.Keys
    decreases t, 0
  {
    set k, x | k in keys && x in TransformationsOf(t.children[k]) :: x
  }


  ghost function TransformationsBelow(t: Tree): set<string>
  {
    if t.kind == External then {}
    else TransformationsUnder(t, t.children.Keys)
  }

  ghost function TransformationsOf(t: Tree): set<string>
    decreases t, 1
  {
    if t.kind == External then {}
    else {t.model} + TransformationsUnder(t, t.children.Keys)
  }

  class DependencyCollector {
    var seen: set<string>
    var result: seq<string>

    constructor ()
      ensures seen == {} && result == []
    {
      seen, result := {}, [];
    }

    ghost predicate Valid()
      reads this
    {
      seen == Elements(result) && NoDuplicates(result)
    }

    method Append(model: string)
      requires Valid()
      modifies this
      ensures Valid() && seen == old(seen) + {model}
      ensures old(result) <= result
    {
      if model !in seen {
        NoDuplicatesSnoc(result, model);
        seen := seen + {model};
        result := result + [model];
      }
    }

    method CollectExternalDeps(t: Tree)
      requires Valid()
      modifies this
      ensures Valid() && seen == old(seen) + ExternalsOf(t)
      ensures old(result) <= result
      decreases t
    {
      if t.kind == External {
        Append(t.model);
        return;
      }
      var remaining := t.children.Keys;
      ghost var done: set<string> := {};
      while remaining != {}
        invariant Valid() && old(result) <= result
        invariant done + remaining == t.children.Keys
        invariant seen == old(seen) + ExternalsUnder(t, done)
        decreases remaining
      {
        var k := AnyKey(remaining);
        CollectExternalDeps(t.children[k]);
        done := done + {k};
        remaining := remaining - {k};
      }
      assert done == t.children.Keys;
    }

    method CollectIntermediateDeps(t: Tree, isRoot: bool)
      requires Valid()
      modifies this
      ensures Valid() && seen == old(seen) + if isRoot then TransformationsBelow(t) else TransformationsOf(t)
      ensures old(result) <= result
      decreases t
    {
      if t.kind == External { return; }
      if !isRoot { Append(t.model); }
      ghost var first := seen;
      var remaining := t.children.Keys;
      ghost var done: set<string> := {};
      while remaining != {}
        invariant Valid() && old(result) <= result
        invariant done + remaining == t.children.Keys
        invariant seen == first + TransformationsUnder(t, done)
        decreases remaining
      {
        var k := AnyKey(remaining);
        CollectIntermediateDeps(t.children[k], false);
        done := done + {k};
        remaining := remaining - {k};
      }
      assert done == t.children.Keys;
    }
  }

  method GetExternalDependencies(t: Tree) returns (r: seq<string>)
    ensures NoDuplicates(r) && Elements(r) == ExternalsOf(t)
  {
    var c := new DependencyCollector();
    c.CollectExternalDeps(t);
    return c.result;
  }

  method GetIntermediateDependencies(t: Tree) returns (r: seq<string>)
    ensures NoDuplicates(r) && Elements(r) == TransformationsBelow(t)
  {
    var c := new DependencyCollector();
    c.CollectIntermediateDeps(t, true);
    return c.result;
  }

  // ---- What the flattened lists hold ----

  /** The kind of the last dependency of that name: the one whose child the tree keeps. */
  function LastKind(deps: seq<Dependency>, name: string): Option<Kind> {
    if deps == [] then None
    else if deps[|deps| - 1].name == name then Some(deps[|deps| - 1].kind)
    else LastKind(deps[..|deps| - 1], name)
  }

  lemma {:induction false} ChildrenAre(repo: Repo, deps: seq<Dependency>, visited: set<string>)
    requires ResolveAll(repo, deps, visited).Ok?
    ensures var children := ResolveAll(repo, deps, visited).value;
      forall n :: (n in children <==> LastKind(deps, n).Some?)
        && (LastKind(deps, n) == Some(External) ==> children[n] == ExternalLeaf(n))
        && (LastKind(deps, n) == Some(Transformation) ==> Resolve(repo, n, visited) == Ok(children[n]))
    decreases |deps|
  {
    if deps == [] {
    } else {
      ChildrenAre(repo, deps[..|deps| - 1], visited);
    }
  }

  /** `b` is, in the end, a dependency of `a` of that kind. */
  ghost predicate DependsOn(repo: Repo, a: string, kind: Kind, b: string) {
    a in repo.transformations && Declared(repo, a).Some? && LastKind(Declared(repo, a).value, b) == Some(kind)
  }

  /** The transformation dependencies that the trees follow. */
  ghost function EffectiveGraph(repo: Repo): Graph {
    map m | m in repo.transformations && Declared(repo, m).Some? ::
      set d | d in Declared(repo, m).value && LastKind(Declared(repo, m).value, d.name) == Some(Transformation) ::
        d.name
  }

  lemma {:induction false} LastKindAmong(deps: seq<Dependency>, name: string)
    requires LastKind(deps, name).Some?
    ensures Dependency(LastKind(deps, name).value, name) in deps
  {
    if deps[|deps| - 1].name == name {
    } else {
      LastKindAmong(deps[..|deps| - 1], name);
    }
  }

  lemma EffectiveEdge(repo: Repo, a: string, b: string)
    ensures Edge(EffectiveGraph(repo), a, b) <==> DependsOn(repo, a, Transformation, b)
  {
    if DependsOn(repo, a, Transformation, b) {
      LastKindAmong(Declared(repo, a).value, b);
    }
  }

  ghost predicate LeadsTo(repo: Repo, a: string, b: string) {
    Leads(EffectiveGraph(repo), a, b)
  }

  lemma LeadsToStep(repo: Repo, a: string, b: string)
    ensures LeadsTo(repo, a, b) <==> a == b || exists n :: DependsOn(repo, a, Transformation, n) && LeadsTo(repo, n, b)
  {
    var g := EffectiveGraph(repo);
    LeadsStep(g, a, b);
    forall n ensures Edge(g, a, n) <==> DependsOn(repo, a, Transformation, n) {
      EffectiveEdge(repo, a, n);
    }
  }

  /** `x` is an external dependency of `m`, or `m` itself is found only among the externals. */
  ghost predicate ExternalAt(repo: Repo, m: string, x: string) {
    if m in repo.transformations then DependsOn(repo, m, External, x) else x == m
  }

  ghost predicate ReachesExternal(repo: Repo, model: string, x: string) {
    exists m :: LeadsTo(repo, model, m) && ExternalAt(repo, m, x)
  }

  lemma ReachesExternalStep(repo: Repo, a: string, x: string)
    ensures ReachesExternal(repo, a, x)
            <==> ExternalAt(repo, a, x) || exists n ::
              DependsOn(repo, a, Transformation, n) && ReachesExternal(repo, n, x)
  {
    if m :| LeadsTo(repo, a, m) && ExternalAt(repo, m, x) {
      LeadsToStep(repo, a, m);
    }
    if ExternalAt(repo, a, x) {
      LeadsToStep(repo, a, a);
    }
    if n :| DependsOn(repo, a, Transformation, n) && ReachesExternal(repo, n, x) {
      var m :| LeadsTo(repo, n, m) && ExternalAt(repo, m, x);
      LeadsToStep(repo, a, m);
    }
  }

  /** The children of a resolved transformation, by the kind of the dependency. */
  lemma ResolvedChildren(repo: Repo, model: string, visited: set<string>)
    requires Resolve(repo, model, visited).Ok? && model in repo.transformations
    ensures var t := Resolve(repo, model, visited).value;
      && t.kind == Transformation && t.model == model && Some(t.dependencies) == Declared(repo, model)
      && (forall n ::
           n in t.children <==> DependsOn(repo, model, External, n) || DependsOn(repo, model, Transformation, n))
      && (forall n | DependsOn(repo, model, External, n) :: n in t.children && t.children[n] == ExternalLeaf(n))
      && (forall n | DependsOn(repo, model, Transformation, n) ::
            n in t.children && Resolve(repo, n, visited + {model}) == Ok(t.children[n]))
  {
    var deps := Declared(repo, model).value;
    assert ResolveAll(repo, deps, visited + {model}).Ok?;
    ChildrenAre(repo, deps, visited + {model});
    var children := ResolveAll(repo, deps, visited + {model}).value;
    assert Resolve(repo, model, visited).value.children == children;
    forall n
      ensures n in children <==> DependsOn(repo, model, External, n) || DependsOn(repo, model, Transformation, n)
    {
      var kind := LastKind(deps, n);
      assert n in children <==> kind.Some?;
      assert kind.Some? ==> kind.value == External || kind.value == Transformation;
    }
  }

  lemma {:induction false} ExternalsExact(repo: Repo, model: string, visited: set<string>, x: string)
    requires Resolve(repo, model, visited).Ok?
    ensures x in ExternalsOf(Resolve(repo, model, visited).value) <==> ReachesExternal(repo, model, x)
    decreases repo.transformations.Keys - visited
  {
    ReachesExternalStep(repo, model, x);
    if model !in repo.transformations {
    } else {
      var t := Resolve(repo, model, visited).value;
      ResolvedChildren(repo, model, visited);
      assert model in repo.transformations.Keys - visited;
      forall n | DependsOn(repo, model, Transformation, n)
        ensures x in ExternalsOf(t.children[n]) <==> ReachesExternal(repo, n, x)
      {
        ExternalsExact(repo, n, visited + {model}, x);
      }
      forall n | DependsOn(repo, model, External, n) ensures x in ExternalsOf(t.children[n]) <==> x == n {
      }
      assert x in ExternalsOf(t) <==> exists n :: n in t.children && x in ExternalsOf(t.children[n]);
    }
  }

  lemma {:induction false} UnmarkedBelow(repo: Repo, model: string, visited: set<string>, x: string)
    requires Resolve(repo, model, visited).Ok? && x in TransformationsOf(Resolve(repo, model, visited).value)
    ensures x !in visited
    decreases repo.transformations.Keys - visited
  {
    if model in repo.transformations && x != model {
      var t := Resolve(repo, model, visited).value;
      ResolvedChildren(repo, model, visited);
      assert model in repo.transformations.Keys - visited;
      var n :| n in t.children && x in TransformationsOf(t.children[n]);
      assert DependsOn(repo, model, Transformation, n);
      UnmarkedBelow(repo, n, visited + {model}, x);
    }
  }

  lemma {:induction false} TransformationsExact(repo: Repo, model: string, visited: set<string>, x: string)
    requires Resolve(repo, model, visited).Ok?
    ensures x in TransformationsOf(Resolve(repo, model, visited).value)
            <==> x in repo.transformations && LeadsTo(repo, model, x)
    ensures x in TransformationsOf(Resolve(repo, model, visited).value) ==> x !in visited
    decreases repo.transformations.Keys - visited
  {
    LeadsToStep(repo, model, x);
    if x in TransformationsOf(Resolve(repo, model, visited).value) { UnmarkedBelow(repo, model, visited, x); }
    if model in repo.transformations {
      var t := Resolve(repo, model, visited).value;
      ResolvedChildren(repo, model, visited);
      assert model in repo.transformations.Keys - visited;
      forall n | DependsOn(repo, model, Transformation, n)
        ensures x in TransformationsOf(t.children[n]) <==> x in repo.transformations && LeadsTo(repo, n, x)
      {
        TransformationsExact(repo, n, visited + {model}, x);
      }
      forall n | DependsOn(repo, model, External, n) ensures x !in TransformationsOf(t.children[n]) {
      }
      assert x in TransformationsOf(t)
        <==> x == model || exists n :: n in t.children && x in TransformationsOf(t.children[n]);
    } else {
      assert forall n :: !DependsOn(repo, model, Transformation, n);
    }
  }

  /** The root is not among the transformations below it. */
  lemma TransformationsBelowExact(repo: Repo, model: string, x: string)
    requires Resolve(repo, model, {}).Ok?
    ensures x in TransformationsBelow(Resolve(repo, model, {}).value)
            <==> x in repo.transformations && LeadsTo(repo, model, x) && x != model
  {
    var t := Resolve(repo, model, {}).value;
    TransformationsExact(repo, model, {}, x);
    if model in repo.transformations {
      ResolvedChildren(repo, model, {});
      forall n | n in t.children ensures model !in TransformationsOf(t.children[n]) {
        if DependsOn(repo, model, Transformation, n) {
          TransformationsExact(repo, n, {} + {model}, model);
        }
      }
    }
  }

  // ---- When the lists follow the declarations ----

  ghost predicate DeclaresDep(repo: Repo, m: string, kind: Kind, x: string) {
    m in repo.transformations && Declared(repo, m).Some? && Dependency(kind, x) in Declared(repo, m).value
  }

  /** The model has no two dependencies of the same name and different kinds. */
  ghost predicate Unambiguous(repo: Repo, m: string) {
    forall x :: !(DeclaresDep(repo, m, External, x) && DeclaresDep(repo, m, Transformation, x))
  }

  /** What the trees take for the model's dependencies is what it declares. */
  ghost predicate FollowsDeclared(repo: Repo, m: string) {
    forall kind, x :: DependsOn(repo, m, kind, x) <==> DeclaresDep(repo, m, kind, x)
  }

  /**
   * A dependency that counts is declared; a declared one counts unless the name is declared with the other kind too.
   */
  lemma {:induction false} LastKindDeclared(deps: seq<Dependency>, kind: Kind, x: string)
    ensures LastKind(deps, x) == Some(kind) ==> Dependency(kind, x) in deps
    ensures Dependency(kind, x) in deps ==>
      LastKind(deps, x) == Some(kind) || (LastKind(deps, x).Some? && Dependency(LastKind(deps, x).value, x) in deps)
  {
    if deps == [] {
    } else {
      var n := |deps| - 1;
      assert deps == deps[..n] + [deps[n]];
      assert deps[n] == Dependency(deps[n].kind, deps[n].name);
      LastKindDeclared(deps[..n], kind, x);
    }
  }

  function Other(kind: Kind): Kind {
    if kind == External then Transformation else External
  }

  lemma DependsOnIsDeclared(repo: Repo, m: string, kind: Kind, x: string)
    ensures DependsOn(repo, m, kind, x) ==> DeclaresDep(repo, m, kind, x)
    ensures DeclaresDep(repo, m, kind, x) && !DependsOn(repo, m, kind, x) ==> DependsOn(repo, m, Other(kind), x)
  {
    if m in repo.transformations && Declared(repo, m).Some? {
      var deps := Declared(repo, m).value;
      LastKindDeclared(deps, kind, x);
      var last := LastKind(deps, x);
      assert last.Some? ==> last.value == kind || last.value == Other(kind);
    }
  }

  /** The trees follow a model's declarations exactly when these name nothing with two kinds. */
  lemma FollowsDeclaredIff(repo: Repo, m: string)
    ensures FollowsDeclared(repo, m) <==> Unambiguous(repo, m)
  {
    forall kind, x ensures Unambiguous(repo, m) ==> (DependsOn(repo, m, kind, x) <==> DeclaresDep(repo, m, kind, x)) {
      DependsOnIsDeclared(repo, m, kind, x);
      DependsOnIsDeclared(repo, m, Other(kind), x);
      assert kind == External || kind == Transformation;
    }
    forall x ensures !(DependsOn(repo, m, External, x) && DependsOn(repo, m, Transformation, x)) {
    }
  }

  /** The lists of `root` hold everything that its declarations lead to. */
  ghost predicate ListsDeclared(repo: Repo, root: string) {
    && (forall m | Leads(DeclaredGraph(repo), root, m) :: LeadsTo(repo, root, m))
    && (forall m, x | Leads(DeclaredGraph(repo), root, m) && DeclaresDep(repo, m, External, x) ::
         ReachesExternal(repo, root, x))
  }

  /** A declaration that an opposite one of the same name replaces is reached from `root` another way. */
  ghost predicate ReplacedIsReached(repo: Repo, root: string, m: string) {
    && (forall x | DeclaresDep(repo, m, Transformation, x) && !DependsOn(repo, m, Transformation, x) ::
         LeadsTo(repo, root, x))
    && (forall x | DeclaresDep(repo, m, External, x) && !DependsOn(repo, m, External, x) ::
         ReachesExternal(repo, root, x))
  }

  lemma LeadsToIsDeclared(repo: Repo, a: string, b: string)
    requires LeadsTo(repo, a, b)
    ensures Leads(DeclaredGraph(repo), a, b)
  {
    var p :| Path(EffectiveGraph(repo), p) && p[0] == a && p[|p| - 1] == b;
    forall i | 0 <= i < |p| - 1 ensures Edge(DeclaredGraph(repo), p[i], p[i + 1]) {
      EffectiveEdge(repo, p[i], p[i + 1]);
      DependsOnIsDeclared(repo, p[i], Transformation, p[i + 1]);
      DeclaresIff(repo, p[i], p[i + 1]);
    }
    assert Path(DeclaredGraph(repo), p);
  }

  lemma LeadsToOneMore(repo: Repo, root: string, m: string, x: string)
    requires LeadsTo(repo, root, m) && DependsOn(repo, m, Transformation, x)
    ensures LeadsTo(repo, root, x)
  {
    LeadsToStep(repo, x, x);
    LeadsToStep(repo, m, x);
    LeadsTransitive(EffectiveGraph(repo), root, m, x);
  }

  lemma {:induction false} DeclaredPathFollowed(repo: Repo, root: string, p: seq<string>)
    requires Path(DeclaredGraph(repo), p) && LeadsTo(repo, root, p[0])
    requires forall m | LeadsTo(repo, root, m) :: ReplacedIsReached(repo, root, m)
    ensures LeadsTo(repo, root, p[|p| - 1])
    decreases |p|
  {
    if |p| == 1 {
    } else {
      PathRest(DeclaredGraph(repo), p);
      DeclaresIff(repo, p[0], p[1]);
      if DependsOn(repo, p[0], Transformation, p[1]) { LeadsToOneMore(repo, root, p[0], p[1]); }
      DeclaredPathFollowed(repo, root, p[1..]);
    }
  }

  /**
   * The lists of a root hold exactly what is declared when every replaced declaration is reached another way, and only
   * then.
   */
  lemma ListsDeclaredIff(repo: Repo, root: string)
    ensures ListsDeclared(repo, root) <==> forall m | LeadsTo(repo, root, m) :: ReplacedIsReached(repo, root, m)
  {
    var g := DeclaredGraph(repo);
    LeadsToStep(repo, root, root);
    if ListsDeclared(repo, root) {
      forall m | LeadsTo(repo, root, m) ensures ReplacedIsReached(repo, root, m) {
        LeadsToIsDeclared(repo, root, m);
        forall x | DeclaresDep(repo, m, Transformation, x) ensures LeadsTo(repo, root, x) {
          DeclaresIff(repo, m, x);
          LeadsStep(g, x, x);
          LeadsStep(g, m, x);
          LeadsTransitive(g, root, m, x);
        }
      }
    }
    if forall m | LeadsTo(repo, root, m) :: ReplacedIsReached(repo, root, m) {
      forall m | Leads(g, root, m) ensures LeadsTo(repo, root, m) {
        var p :| Path(g, p) && p[0] == root && p[|p| - 1] == m;
        DeclaredPathFollowed(repo, root, p);
      }
      forall m, x | Leads(g, root, m) && DeclaresDep(repo, m, External, x) ensures ReachesExternal(repo, root, x) {
        assert LeadsTo(repo, root, m);
        if DependsOn(repo, m, External, x) { assert ExternalAt(repo, m, x); }
      }
    }
  }

  /** So it suffices that no model which the root's declarations reach names a dependency with two kinds. */
  lemma UnambiguousListsDeclared(repo: Repo, root: string)
    requires forall m | Leads(DeclaredGraph(repo), root, m) :: Unambiguous(repo, m)
    ensures ListsDeclared(repo, root)
    ensures forall x :: LeadsTo(repo, root, x) <==> Leads(DeclaredGraph(repo), root, x)
  {
    forall m | LeadsTo(repo, root, m) ensures ReplacedIsReached(repo, root, m) {
      LeadsToIsDeclared(repo, root, m);
      FollowsDeclaredIff(repo, m);
    }
    ListsDeclaredIff(repo, root);
    forall x | LeadsTo(repo, root, x) ensures Leads(DeclaredGraph(repo), root, x) {
      LeadsToIsDeclared(repo, root, x);
    }
  }

  /** Resolving a model and flattening its tree: each reachable model is listed exactly once, in any iteration order. */
  method FlattenModel(repo: Repo, model: string) returns (externals: seq<string>, intermediates: seq<string>, ok: bool)
    ensures ok
            <==> forall m | Leads(DeclaredGraph(repo), model, m) :: Sound(repo, m) && !OnCycle(DeclaredGraph(repo), m)
    ensures ok ==> NoDuplicates(externals) && forall x :: x in externals <==> ReachesExternal(repo, model, x)
    ensures ok ==> NoDuplicates(intermediates) && forall x ::
      x in intermediates <==> x in repo.transformations && LeadsTo(repo, model, x) && x != model
  {
    ResolvesIff(repo, model);
    var resolver := new Resolver(repo);
    var tree := resolver.ResolveDependencyTree(model);
    if tree.Err? { return [], [], false; }
    externals := GetExternalDependencies(tree.value);
    intermediates := GetIntermediateDependencies(tree.value);
    ok := true;
    forall x ensures x in externals <==> ReachesExternal(repo, model, x) {
      ExternalsExact(repo, model, {}, x);
      assert x in externals <==> x in Elements(externals);
    }
    forall x ensures x in intermediates <==> x in repo.transformations && LeadsTo(repo, model, x) && x != model {
      TransformationsBelowExact(repo, model, x);
      assert x in intermediates <==> x in Elements(intermediates);
    }
  }

  lemma ParseAllSnoc(strings: seq<string>, s: string)
    requires ParseAll(strings).Some? && ParseDependencyString(s).Some?
    ensures ParseAll(strings + [s]) == Some(ParseAll(strings).value + [ParseDependencyString(s).value])
  {
    assert (strings + [s])[..|strings|] == strings;
  }

  lemma AmbiguousModel(repo: Repo, s: string, t: string)
    requires repo.transformations == map["a" := Some([s, t]), "b" := Some([])]
    requires ParseDependencyString(s) == Some(Dependency(Transformation, "b"))
    requires ParseDependencyString(t) == Some(Dependency(External, "b"))
    ensures Resolve(repo, "a", {}).Ok? && Leads(DeclaredGraph(repo), "a", "b")
    ensures "b" !in TransformationsBelow(Resolve(repo, "a", {}).value)
  {
    var deps := [Dependency(Transformation, "b")] + [Dependency(External, "b")];
    assert [s, t] == ([] + [s]) + [t];
    assert ParseAll([]) == Some([]);
    ParseAllSnoc([], s);
    ParseAllSnoc([] + [s], t);
    assert ParseAll([] + [s]) == Some([] + [Dependency(Transformation, "b")]);
    assert [] + [Dependency(Transformation, "b")] == [Dependency(Transformation, "b")];
    assert repo.transformations["a"] == Some([s, t]);
    assert ParseAll([s, t]) == Some(deps);
    assert deps[0] == Dependency(Transformation, "b");
    DeclaresIff(repo, "a", "b");
    LeadsStep(DeclaredGraph(repo), "b", "b");
    LeadsStep(DeclaredGraph(repo), "a", "b");
    AmbiguousResolves(repo, deps);
    forall n ensures !DependsOn(repo, "a", Transformation, n) {
      assert deps[..1] == [Dependency(Transformation, "b")] && deps[..1][..0] == [];
      assert LastKind(deps[..1], n) == if n == "b" then Some(Transformation) else LastKind([], n);
      assert LastKind(deps, n) == if n == "b" then Some(External) else LastKind(deps[..1], n);
    }
    LeadsToStep(repo, "a", "b");
    TransformationsBelowExact(repo, "a", "b");
  }

  lemma AmbiguousResolves(repo: Repo, deps: seq<Dependency>)
    requires repo.transformations.Keys == {"a", "b"}
    requires Declared(repo, "a") == Some(deps) && Declared(repo, "b") == Some([])
    requires forall d | d in deps :: d.name == "b"
    ensures Resolve(repo, "a", {}).Ok?
  {
    ResolveAllSucceedsIff(repo, deps, {} + {"a"});
  }

  /** Without that condition a declared transformation can go missing: the later external of its name replaces it. */
  lemma AmbiguousDependencyIsLost(repo: Repo)
    requires repo.transformations
          == map["a" := Some([TRANSFORMATION_PREFIX + "b", EXTERNAL_PREFIX + "b"]), "b" := Some([])]
    ensures Resolve(repo, "a", {}).Ok? && Leads(DeclaredGraph(repo), "a", "b")
    ensures "b" !in TransformationsBelow(Resolve(repo, "a", {}).value)
  {
    ParsesPrefixed("b");
    AmbiguousModel(repo, TRANSFORMATION_PREFIX + "b", EXTERNAL_PREFIX + "b");
  }

  /** A model whose file has one string, which names an external. */
  lemma OneExternal(repo: Repo, m: string, s: string, x: string)
    requires m in repo.transformations && repo.transformations[m] == Some([s])
    requires ParseDependencyString(s) == Some(Dependency(External, x))
    ensures Resolve(repo, m, {})
         == Ok(Tree(m, Transformation, [Dependency(External, x)], map[x := Tree(x, External, [], map[])]))
    ensures forall y :: ReachesExternal(repo, m, y) <==> y == x
    ensures forall y :: LeadsTo(repo, m, y) <==> y == m
  {
    var deps := [Dependency(External, x)];
    assert [s] == [] + [s] && deps == [] + [Dependency(External, x)];
    ParseAllSnoc([], s);
    assert Declared(repo, m) == Some(deps);
    assert deps[..0] == [];
    assert ResolveAll(repo, deps, {} + {m}) == Ok(map[][x := ExternalLeaf(x)]);
    forall y, kind ensures DependsOn(repo, m, kind, y) <==> kind == External && y == x {
      assert LastKind(deps[..0], y) == None;
      assert LastKind(deps, y) == if y == x then Some(External) else None;
    }
    forall y ensures ReachesExternal(repo, m, y) <==> y == x {
      ReachesExternalStep(repo, m, y);
    }
    forall y ensures LeadsTo(repo, m, y) <==> y == m {
      LeadsToStep(repo, m, y);
    }
  }

  /** A model that names a table of another database resolves, and needs the external of that name and nothing else. */
  lemma CrossDatabaseModel(repo: Repo, m: string, db: string, table: string)
    requires IsIdentifier(db) && IsIdentifier(table)
    requires m in repo.transformations && repo.transformations[m] == Some([db + "." + table])
    ensures Resolve(repo, m, {}).Ok?
    ensures forall x :: ReachesExternal(repo, m, x) <==> x == db + "_" + table
    ensures forall x :: LeadsTo(repo, m, x) <==> x == m
  {
    ParsesTable(db, table);
    OneExternal(repo, m, db + "." + table, db + "_" + table);
  }
}
