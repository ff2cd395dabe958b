/**
 * Manifests and the registry that stores them (pkg/instance/manifest.go, registry.go).
 * A registry directory is a map from file name to content; a time stamp of 0 is Go's zero time.
 */
module Registry {
  import opened Common
  import opened Ports

  datatype Status = Unset | Created | Reserved | Running | Stopped | Stale | Orphan

  datatype DockerPlan = DockerPlan(
    projectName: string, containers: map<string, string>, volumes: map<string, string>, labels: map<string, string>)

  datatype Manifest = Manifest(
    instanceID: string, status: Status, rootDir: string, configPath: string,
    ports: PortPlan, docker: DockerPlan, pids: map<string, int>, urls: map<string, string>, repos: map<string, string>,
    createdAt: int, updatedAt: int, lastError: string)

  datatype FileContent = Parsed(manifest: Manifest) | Garbled

  datatype RegistryError = ManifestRequired | IdRequired | NotFound | Unreadable | OtherConfig(existing: string)

  type Files = map<string, FileContent>

  const PROJECT_PREFIX := "xcli-"
  const LABEL_INSTANCE := "com.ethpandaops.xcli.instance"
  const LABEL_CONFIG := "com.ethpandaops.xcli.config"

  function NewDockerPlan(instanceID: string, configPath: string): DockerPlan {
    var name := PROJECT_PREFIX + instanceID;
    DockerPlan(
      name,
      map["prometheus" := name + "-prometheus", "grafana" := name + "-grafana"],
      map["prometheus" := name + "-prometheus-data", "grafana" := name + "-grafana-data"],
      map[LABEL_INSTANCE := instanceID, LABEL_CONFIG := configPath])
  }

  /** The names and labels of an instance's Docker resources, literally. */
  lemma DockerPlanNames(instanceID: string, configPath: string)
    ensures var plan := NewDockerPlan(instanceID, configPath);
      && plan.projectName == "xcli-" + instanceID
      && plan.containers == map["prometheus" := "xcli-" + instanceID + "-prometheus",
                                "grafana" := "xcli-" + instanceID + "-grafana"]
      && plan.volumes == map["prometheus" := "xcli-" + instanceID + "-prometheus-data",
                             "grafana" := "xcli-" + instanceID + "-grafana-data"]
      && plan.labels == map["com.ethpandaops.xcli.instance" := instanceID, "com.ethpandaops.xcli.config" := configPath]
  {
  }

  // ---- What Save does to the directory ----

  /** The config that already owns the id, when it is not the manifest's own. */
  function Conflict(files: Files, m: Manifest): Option<RegistryError> {
    if m.instanceID !in files then None
    else match files[m.instanceID] {
      case Garbled => Some(Unreadable)
      case Parsed(existing) =>
        if existing.configPath == "" || m.configPath == "" || existing.configPath == m.configPath then None
        else Some(OtherConfig(existing.configPath))
    }
  }

  function SaveError(files: Files, m: Manifest): Option<RegistryError> {
    if m.instanceID == "" then Some(IdRequired) else Conflict(files, m)
  }

  function Stamped(m: Manifest, now: int): Manifest {
    m.(createdAt := if m.createdAt == 0 then now else m.createdAt, updatedAt := now)
  }

  /** The directory after saving `m`: unchanged when the save is refused. */
  function Saved(files: Files, m: Manifest, now: int): Files {
    if SaveError(files, m).Some? then files else files[m.instanceID := Parsed(Stamped(m, now))]
  }

  // ---- Whose config an instance's file belongs to ----

  datatype SaveRequest = SaveRequest(manifest: Manifest, now: int)

  /** The directory after those saves, one after another. */
  function SavedAll(files: Files, saves: seq<SaveRequest>): Files {
    if saves == [] then files
    else
      var last := saves[|saves| - 1];
      Saved(SavedAll(files, saves[..|saves| - 1]), last.manifest, last.now)
  }

  /** The instance has a file, and it names this config. */
  predicate BelongsTo(files: Files, id: string, path: string) {
    id in files && files[id].Parsed? && files[id].manifest.configPath == path
  }

  /** One save hands a file on to another config only from or to the empty path. */
  lemma OneSaveKeepsConfig(files: Files, m: Manifest, now: int, id: string, before: string, after: string)
    requires BelongsTo(files, id, before) && BelongsTo(Saved(files, m, now), id, after)
    ensures before == after || before == "" || after == ""
  {
  }

  lemma OneSaveOfOwned(files: Files, s: SaveRequest, id: string, path: string)
    requires id != "" && path != "" && BelongsTo(files, id, path)
    ensures BelongsTo(Saved(files, s.manifest, s.now), id, path)
            <==> s.manifest.instanceID != id || s.manifest.configPath != ""
  {
  }

  predicate NamesConfig(s: SaveRequest, id: string) {
    s.manifest.instanceID != id || s.manifest.configPath != ""
  }

  lemma {:induction false} SavesKeepConfig(files: Files, saves: seq<SaveRequest>, id: string, path: string)
    requires id != "" && path != "" && BelongsTo(files, id, path)
    requires forall s | s in saves :: NamesConfig(s, id)
    ensures BelongsTo(SavedAll(files, saves), id, path)
  {
    if saves != [] {
      var n := |saves| - 1;
      SavesKeepConfig(files, saves[..n], id, path);
      assert NamesConfig(saves[n], id);
      OneSaveOfOwned(SavedAll(files, saves[..n]), saves[n], id, path);
    }
  }

  /**
   * Whatever is saved, an instance's file stays with its config throughout: exactly when no save of that
   * instance leaves the path empty, which is let through and gives the file up.
   */
  lemma ConfigIsKeptIff(files: Files, saves: seq<SaveRequest>, id: string, path: string)
    requires id != "" && path != "" && BelongsTo(files, id, path)
    ensures (forall n: nat | n <= |saves| :: BelongsTo(SavedAll(files, saves[..n]), id, path))
            <==> forall s | s in saves :: NamesConfig(s, id)
  {
    if forall s | s in saves :: NamesConfig(s, id) {
      forall n: nat | n <= |saves| ensures BelongsTo(SavedAll(files, saves[..n]), id, path) {
        SavesKeepConfig(files, saves[..n], id, path);
      }
    }
    if forall n: nat | n <= |saves| :: BelongsTo(SavedAll(files, saves[..n]), id, path) {
      forall s | s in saves ensures NamesConfig(s, id) {
        var k :| 0 <= k < |saves| && saves[k] == s;
        assert saves[..k + 1][..k] == saves[..k];
        OneSaveOfOwned(SavedAll(files, saves[..k]), s, id, path);
        assert BelongsTo(SavedAll(files, saves[..k + 1]), id, path);
      }
    }
  }

  /** So a file does change hands through a save without a path. */
  lemma ConfigIsGivenUp(m: Manifest)
    requires m.instanceID == "lab" && m.configPath == "/home/a/.xcli.yaml"
    ensures var files: Files := map["lab" := Parsed(m)];
      var there := SaveRequest(m.(configPath := "/home/b/.xcli.yaml"), 1);
      && SaveError(files, there.manifest) == Some(OtherConfig("/home/a/.xcli.yaml"))
      && BelongsTo(SavedAll(files, [SaveRequest(m.(configPath := ""), 0), there]), "lab", "/home/b/.xcli.yaml")
  {
    var files: Files := map["lab" := Parsed(m)];
    var none, there := SaveRequest(m.(configPath := ""), 0), SaveRequest(m.(configPath := "/home/b/.xcli.yaml"), 1);
    assert "/home/a/.xcli.yaml"[6] != "/home/b/.xcli.yaml"[6];
    assert [none, there][..1] == [none] && [none][..0] == [];
    assert SavedAll(files, [none]) == Saved(files, none.manifest, 0);
  }

  /** A manifest that others point to and that is updated in place. */
  class ManifestCell {
    var manifest: Manifest

    constructor (m: Manifest)
      ensures manifest == m
    {
      manifest := m;
    }
  }

  ghost predicate AnyGarbled(files: Files) {
    exists id :: id in files && files[id].Garbled?
  }

  function LoadFrom(files: Files, id: string): Result<Manifest, RegistryError> {
    if id !in files then Err(NotFound)
    else match files[id] case Garbled => Err(Unreadable) case Parsed(m) => Ok(m)
  }

  function IdOf(m: Manifest): string { m.instanceID }

  function ManifestsOf(files: Files, ids: set<string>): set<Manifest> {
    set id | id in ids && id in files && files[id].Parsed? :: files[id].manifest
  }

  /** One manifest for each of the files `ids`, all of them readable. */
  predicate Lists(files: Files, ids: set<string>, manifests: seq<Manifest>) {
    && ids <= files.Keys && |manifests| == |ids|
    && (forall id | id in ids :: files[id].Parsed?)
    && Elements(manifests) == ManifestsOf(files, ids)
  }

  lemma ListsAdd(files: Files, ids: set<string>, manifests: seq<Manifest>, id: string)
    requires Lists(files, ids, manifests) && id in files && id !in ids && files[id].Parsed?
    ensures Lists(files, ids + {id}, manifests + [files[id].manifest])
  {
    var m := files[id].manifest;
    assert ManifestsOf(files, ids + {id}) == ManifestsOf(files, ids) + {m};
    assert Elements(manifests + [m]) == Elements(manifests) + {m};
  }

  lemma ListedFile(files: Files, manifests: seq<Manifest>, m: Manifest) returns (id: string)
    requires Lists(files, files.Keys, manifests) && m in manifests
    ensures id in files && files[id] == Parsed(m)
  {
    assert m in Elements(manifests);
    id :| id in files && files[id].Parsed? && files[id].manifest == m;
  }

  /** Every manifest is stored under its own id. */
  predicate NamedByID(files: Files) {
    forall id | id in files && files[id].Parsed? :: files[id].manifest.instanceID == id
  }

  /** Then reading all files lists no manifest twice. */
  lemma ListedOnce(files: Files, manifests: seq<Manifest>)
    requires Lists(files, files.Keys, manifests) && NamedByID(files)
    ensures NoDuplicates(manifests)
  {
    var ids := set m | m in Elements(manifests) :: m.instanceID;
    assert ids == files.Keys by {
      forall id | id in files ensures id in ids {
        assert files[id].manifest in ManifestsOf(files, files.Keys);
      }
    }
    ImageNotLarger(Elements(manifests));
    AllDifferent(manifests);
  }

  lemma {:induction false} ImageNotLarger(manifests: set<Manifest>)
    ensures |set m | m in manifests :: m.instanceID| <= |manifests|
  {
    if manifests == {} {
      assert (set m | m in manifests :: m.instanceID) == {};
    } else {
      var m := Member(manifests);
      ImageNotLarger(manifests - {m});
      var ids, fewer := set k | k in manifests :: k.instanceID, set k | k in manifests - {m} :: k.instanceID;
      assert ids == fewer + {m.instanceID};
    }
  }

  /** A list with as many different elements as places holds each once. */
  lemma AllDifferent(manifests: seq<Manifest>)
    requires |Elements(manifests)| >= |manifests|
    ensures NoDuplicates(manifests)
  {
    forall i, j | 0 <= i < j < |manifests| ensures manifests[i] != manifests[j] {
      if manifests[i] == manifests[j] {
        var rest := manifests[..j] + manifests[j + 1..];
        assert Elements(rest) == Elements(manifests) by {
          forall m | m in manifests ensures m in rest {
            var k :| 0 <= k < |manifests| && manifests[k] == m;
            assert if k < j then rest[k] == m else if k > j then rest[k - 1] == m else rest[i] == m;
          }
        }
        ElementsNotMore(rest);
      }
    }
  }

  lemma {:induction false} ElementsNotMore(manifests: seq<Manifest>)
    ensures |Elements(manifests)| <= |manifests|
  {
    if manifests == [] {
      assert Elements(manifests) == {};
    } else {
      var n := |manifests| - 1;
      ElementsNotMore(manifests[..n]);
      assert Elements(manifests) == Elements(manifests[..n]) + {manifests[n]};
    }
  }

  class ManifestRegistry {
    var files: Files
    var localCopies: map<(string, string), Manifest>

    constructor ()
      ensures files == map[] && localCopies == map[]
    {
      files, localCopies := map[], map[];
    }

    /** Succeeds exactly when the instance has a file that parses, and then with what was saved there. */
    method Load(instanceID: string) returns (r: Result<Manifest, RegistryError>)
      ensures r.Ok? <==> instanceID in files && files[instanceID].Parsed?
      ensures r.Ok? ==> files[instanceID] == Parsed(r.value)
      ensures r.Err? ==> r.error == if instanceID in files then Unreadable else NotFound
    {
      if instanceID !in files { return Err(NotFound); }
      match files[instanceID] {
        case Garbled => return Err(Unreadable);
        case Parsed(m) => return Ok(m);
      }
    }

    /** All manifests, ascending by instance id; one unreadable file fails the whole read. */
    method LoadAll() returns (r: Result<seq<Manifest>, RegistryError>)
      ensures r.Err? <==> AnyGarbled(files)
      ensures r.Ok? ==> Lists(files, files.Keys, r.value) && SortedByKey(IdOf, r.value)
    {
      r := ReadFiles();
      if r.Ok? {
        r := Ok(SortByKey(IdOf, r.value));
      }
    }

    method ReadFile(id: string) returns (r: Result<Manifest, RegistryError>)
      requires id in files
      ensures r.Err? ==> AnyGarbled(files)
      ensures r.Ok? ==> files[id] == Parsed(r.value)
    {
      r := Load(id);
    }

    method ReadFiles() returns (r: Result<seq<Manifest>, RegistryError>)
      ensures r.Err? ==> AnyGarbled(files)
      ensures r.Ok? ==> Lists(files, files.Keys, r.value)
    {
      var manifests: seq<Manifest> := [];
      ghost var done: set<string> := {};
      var remaining := files.Keys;
      while remaining != {}
        invariant done + remaining == files.Keys && done !! remaining
        invariant Lists(files, done, manifests)
        decreases remaining
      {
        var id := AnyKey(remaining);
        var loaded := ReadFile(id);
        if loaded.Err? { return Err(loaded.error); }
        ListsAdd(files, done, manifests, id);
        manifests := manifests + [loaded.value];
        done := done + {id};
        remaining := remaining - {id};
      }
      assert done == files.Keys;
      return Ok(manifests);
    }

    method Save(cell: ManifestCell?, now: int) returns (err: Option<RegistryError>)
      modifies this, cell
      ensures cell == null ==> err == Some(ManifestRequired) && unchanged(this)
      ensures cell != null ==>
        && err == SaveError(old(files), old(cell.manifest))
        && files == Saved(old(files), old(cell.manifest), now)
        && (err.None? ==>
              && cell.manifest == Stamped(old(cell.manifest), now)
              && localCopies == old(localCopies)[(cell.manifest.rootDir, cell.manifest.instanceID) := cell.manifest])
        && (err.Some? ==> cell.manifest == old(cell.manifest) && localCopies == old(localCopies))
      ensures err == Some(IdRequired) <==> cell != null && old(cell.manifest.instanceID) == ""
      ensures cell != null && old(cell.manifest.instanceID) != "" ==>
        var id, path := old(cell.manifest.instanceID), old(cell.manifest.configPath);
        && (err == Some(Unreadable) <==> id in old(files) && old(files)[id].Garbled?)
        && forall other :: (err == Some(OtherConfig(other)) <==>
             id in old(files) && old(files)[id].Parsed? && old(files)[id].manifest.configPath == other
             && other != "" && path != "" && other != path)
      ensures err.Some? && cell != null && old(cell.manifest.instanceID) != "" ==>
        err.value.Unreadable? || err.value.OtherConfig?
      ensures err.Some? ==> files == old(files)
      ensures err.None? ==>
        && cell.manifest == old(cell.manifest).(createdAt := cell.manifest.createdAt, updatedAt := now)
        && cell.manifest.createdAt == (if old(cell.manifest.createdAt) == 0 then now else old(cell.manifest.createdAt))
        && cell.manifest.instanceID in files && files[cell.manifest.instanceID] == Parsed(cell.manifest)
        && forall id | id != cell.manifest.instanceID ::
             (id in files <==> id in old(files)) && (id in files ==> files[id] == old(files)[id])
    {
      if cell == null { return Some(ManifestRequired); }
      if cell.manifest.instanceID == "" { return Some(IdRequired); }
      var conflict := Conflict(files, cell.manifest);
      if conflict.Some? { return conflict; }
      if cell.manifest.createdAt == 0 {
        cell.manifest := cell.manifest.(createdAt := now);
      }
      cell.manifest := cell.manifest.(updatedAt := now);
      files := files[cell.manifest.instanceID := Parsed(cell.manifest)];
      localCopies := localCopies[(cell.manifest.rootDir, cell.manifest.instanceID) := cell.manifest];
      return None;
    }

    method Delete(cell: ManifestCell?) returns (err: Option<RegistryError>)
      modifies this
      ensures cell == null ==> err == Some(ManifestRequired) && unchanged(this)
      ensures cell != null && cell.manifest.instanceID == "" ==> err == Some(IdRequired) && unchanged(this)
      ensures cell != null && cell.manifest.instanceID != "" ==>
        && err == None
        && files == old(files) - {cell.manifest.instanceID}
        && localCopies == old(localCopies) -
             if cell.manifest.rootDir == "" then {} else {(cell.manifest.rootDir, cell.manifest.instanceID)}
    {
      if cell == null { return Some(ManifestRequired); }
      if cell.manifest.instanceID == "" { return Some(IdRequired); }
      files := files - {cell.manifest.instanceID};
      if cell.manifest.rootDir != "" {
        localCopies := localCopies - {(cell.manifest.rootDir, cell.manifest.instanceID)};
      }
      return None;
    }
  }
}
