/** Instance ids (pkg/instance/identity.go), and reconciling manifests with what runs (pkg/instance/reconcile.go). */
module Reconcile {
  import opened Common
  import opened Ports
  import opened Registry
  import opened Allocator

  // ---- Ids ----

  datatype IdError = EmptyId

  predicate IsIdChar(c: char) {
    'a' <= c <= 'z' || '0' <= c <= '9' || c == '_' || c == '-'
  }

  predicate IsNotIdChar(c: char) { !IsIdChar(c) }

  predicate IsEdge(c: char) { c == '-' || c == '_' }

  /** Every longest run of characters that are not allowed becomes one dash. */
  function ReplaceRuns(s: string): (r: string)
    ensures forall c | c in r :: IsIdChar(c)
    decreases |s|
  {
    if s == "" then ""
    else if IsIdChar(s[0]) then [s[0]] + ReplaceRuns(s[1..])
    else "-" + ReplaceRuns(TrimLeft(s[1..], IsNotIdChar))
  }

  /** `lower` is the letter case folding of the platform. */
  function SanitizeID(id: string, lower: char -> char): Result<string, IdError> {
    var clean := Trim(ReplaceRuns(Lowered(TrimSpace(id), lower)), IsEdge);
    if clean == "" then Err(EmptyId) else Ok(clean)
  }

  predicate IsSanitized(id: string) {
    id != "" && (forall c | c in id :: IsIdChar(c)) && !IsEdge(id[0]) && !IsEdge(id[|id| - 1])
  }

  lemma {:induction false} TrimKeeps(s: string, drop: char -> bool)
    requires s != "" ==> !drop(s[0]) && !drop(s[|s| - 1])
    ensures Trim(s, drop) == s
  {
  }

  lemma {:induction false} ReplaceRunsKeeps(s: string)
    requires forall c | c in s :: IsIdChar(c)
    ensures ReplaceRuns(s) == s
    decreases |s|
  {
    if s == "" {
    } else {
      ReplaceRunsKeeps(s[1..]);
      assert s == [s[0]] + s[1..];
    }
  }

  /** What comes out is an id, and sanitizing it again changes nothing. */
  lemma SanitizedIsSanitized(id: string, lower: char -> char)
    requires forall c | IsIdChar(c) :: lower(c) == c
    ensures SanitizeID(id, lower).Ok? ==> IsSanitized(SanitizeID(id, lower).value)
    ensures SanitizeID(id, lower).Ok? ==> SanitizeID(SanitizeID(id, lower).value, lower) == SanitizeID(id, lower)
  {
    if SanitizeID(id, lower).Ok? {
      SanitizedIsFixed(SanitizeID(id, lower).value, lower);
    }
  }

  lemma SanitizedHasNoSpace(id: string)
    requires IsSanitized(id)
    ensures TrimSpace(id) == id
  {
    assert forall c | c in id :: !IsSpace(c);
    TrimKeeps(id, IsSpace);
  }

  lemma LoweredKeeps(id: string, lower: char -> char)
    requires forall i | 0 <= i < |id| :: lower(id[i]) == id[i]
    ensures Lowered(id, lower) == id
  {
  }

  lemma SanitizedIsFixed(id: string, lower: char -> char)
    requires IsSanitized(id) && forall c | IsIdChar(c) :: lower(c) == c
    ensures SanitizeID(id, lower) == Ok(id)
  {
    SanitizedHasNoSpace(id);
    forall i | 0 <= i < |id| ensures lower(id[i]) == id[i] {
      assert IsIdChar(id[i]);
    }
    LoweredKeeps(id, lower);
    ReplaceRunsKeeps(id);
    TrimKeeps(id, IsEdge);
  }

  /** The allowed characters, and the two that are trimmed off the ends. */
  lemma IdCharacters(c: char)
    ensures IsIdChar(c) <==> c in "abcdefghijklmnopqrstuvwxyz" || c in "0123456789" || c in "_-"
    ensures IsEdge(c) <==> c in "_-"
  {
    if 'a' <= c <= 'z' { assert c == "abcdefghijklmnopqrstuvwxyz"[c as int - 'a' as int]; }
    if '0' <= c <= '9' { assert c == "0123456789"[c as int - '0' as int]; }
  }

  lemma {:induction false} TrimLeftRun(bad: string, rest: string)
    requires (forall c | c in bad :: !IsIdChar(c)) && (rest == "" || IsIdChar(rest[0]))
    ensures TrimLeft(bad + rest, IsNotIdChar) == rest
    decreases |bad|
  {
    if bad == "" {
      assert bad + rest == rest;
    } else {
      assert (bad + rest)[0] == bad[0] && (bad + rest)[1..] == bad[1..] + rest;
      TrimLeftRun(bad[1..], rest);
    }
  }

  lemma FirstRun(bad: string, rest: string)
    requires (rest == "" || IsIdChar(rest[0])) && bad != "" && forall c | c in bad :: !IsIdChar(c)
    ensures ReplaceRuns(bad + rest) == "-" + ReplaceRuns(rest)
  {
    assert (bad + rest)[0] == bad[0] && (bad + rest)[1..] == bad[1..] + rest;
    TrimLeftRun(bad[1..], rest);
  }

  lemma OneKept(kept: string, rest: string)
    requires kept != ""
    ensures [kept[0]] + (kept[1..] + "-" + rest) == kept + "-" + rest
  {
  }

  /** One dash stands for a whole run of other characters, and the characters around it stay. */
  lemma {:induction false} RunBecomesDash(kept: string, bad: string, rest: string)
    requires (forall c | c in kept :: IsIdChar(c)) && (rest == "" || IsIdChar(rest[0]))
    requires bad != "" && forall c | c in bad :: !IsIdChar(c)
    ensures ReplaceRuns(kept + bad + rest) == kept + "-" + ReplaceRuns(rest)
    decreases |kept|
  {
    var s := kept + bad + rest;
    if kept == "" {
      FirstRun(bad, rest);
      assert s == bad + rest && kept + "-" + ReplaceRuns(rest) == "-" + ReplaceRuns(rest);
    } else {
      assert s[0] == kept[0] && s[1..] == kept[1..] + bad + rest;
      RunBecomesDash(kept[1..], bad, rest);
      OneKept(kept, ReplaceRuns(rest));
    }
  }

  /** Two ids with other characters between them become the two joined by a dash. */
  lemma SanitizesRun(a: string, bad: string, b: string, lower: char -> char)
    requires IsSanitized(a) && IsSanitized(b) && bad != "" && forall c | c in bad :: !IsIdChar(c)
    requires forall c | c in a + bad + b :: lower(c) == c
    ensures SanitizeID(a + bad + b, lower) == Ok(a + "-" + b)
  {
    var s := a + bad + b;
    assert s[0] == a[0] && s[|s| - 1] == b[|b| - 1];
    assert IsIdChar(a[0]) && IsIdChar(b[|b| - 1]);
    TrimKeeps(s, IsSpace);
    LoweredKeeps(s, lower);
    assert IsIdChar(b[0]);
    RunBecomesDash(a, bad, b);
    ReplaceRunsKeeps(b);
    var joined := a + "-" + b;
    assert joined[0] == a[0] && joined[|joined| - 1] == b[|b| - 1];
    TrimKeeps(joined, IsEdge);
  }

  lemma {:induction false} TrimmedOtherThan(s: string, c: char)
    requires IsIdChar(c)
    ensures c in TrimLeft(s, IsNotIdChar) <==> c in s
    decreases |s|
  {
    if s != "" && IsNotIdChar(s[0]) {
      TrimmedOtherThan(s[1..], c);
      assert s == [s[0]] + s[1..];
    }
  }

  lemma {:induction false} RunsKeepOthers(s: string, c: char)
    requires IsIdChar(c) && c != '-'
    ensures c in ReplaceRuns(s) <==> c in s
    decreases |s|
  {
    if s != "" {
      assert s == [s[0]] + s[1..];
      if IsIdChar(s[0]) {
        RunsKeepOthers(s[1..], c);
      } else {
        RunsKeepOthers(TrimLeft(s[1..], IsNotIdChar), c);
        TrimmedOtherThan(s[1..], c);
      }
    }
  }

  /** An id is refused exactly when no letter and no digit is left of it. */
  lemma SanitizeFailsIff(id: string, lower: char -> char)
    ensures SanitizeID(id, lower).Err?
            <==> forall c | c in Lowered(TrimSpace(id), lower) :: IsEdge(c) || !IsIdChar(c)
  {
    var s := Lowered(TrimSpace(id), lower);
    TrimEmptyIff(ReplaceRuns(s), IsEdge);
    forall c ensures !IsEdge(c) && IsIdChar(c) ==> (c in ReplaceRuns(s) <==> c in s) {
      if !IsEdge(c) && IsIdChar(c) { RunsKeepOthers(s, c); }
    }
  }

  // ---- Docker resources ----

  datatype DockerResource = DockerResource(
    kind: string, id: string, name: string, state: string, labels: map<string, string>)

  const CONTAINER := "container"
  const LABEL_PROJECT := "com.docker.compose.project"

  function LabelOf(r: DockerResource, key: string): string {
    TrimSpace(if key in r.labels then r.labels[key] else "")
  }

  /** The instance a resource belongs to; "" when it cannot be told. */
  function ResourceInstanceID(r: DockerResource): string {
    if LabelOf(r, LABEL_INSTANCE) != "" then LabelOf(r, LABEL_INSTANCE) else ProjectID(LabelOf(r, LABEL_PROJECT))
  }

  function ProjectID(project: string): string {
    if HasPrefix(project, PROJECT_PREFIX) && |project| > |PROJECT_PREFIX| then project[|PROJECT_PREFIX|..] else ""
  }

  lemma ProjectHasNoSpace(id: string)
    requires IsSanitized(id)
    ensures TrimSpace(PROJECT_PREFIX + id) == PROJECT_PREFIX + id
  {
    var project := PROJECT_PREFIX + id;
    assert project[0] == 'x' && project[|project| - 1] == id[|id| - 1];
    assert IsIdChar(id[|id| - 1]);
    TrimKeeps(project, IsSpace);
  }

  lemma LabelledID(id: string, r: DockerResource)
    requires IsSanitized(id) && LABEL_INSTANCE in r.labels && r.labels[LABEL_INSTANCE] == id
    ensures ResourceInstanceID(r) == id
  {
    SanitizedHasNoSpace(id);
  }

  lemma LabelsDiffer()
    ensures LABEL_INSTANCE != LABEL_CONFIG
  {
    assert |LABEL_INSTANCE| == 29 && |LABEL_CONFIG| == 27;
  }

  /** A resource with the labels made for a sanitized id belongs to that instance. */
  lemma LabelsLeadBack(id: string, configPath: string, r: DockerResource)
    requires IsSanitized(id) && r.labels == NewDockerPlan(id, configPath).labels
    ensures ResourceInstanceID(r) == id
  {
    LabelsDiffer();
    LabelledID(id, r);
  }

  lemma MissingLabel(r: DockerResource, key: string)
    requires key !in r.labels
    ensures LabelOf(r, key) == ""
  {
    TrimKeeps("", IsSpace);
  }

  lemma ProjectNameOf(id: string, configPath: string)
    ensures NewDockerPlan(id, configPath).projectName == PROJECT_PREFIX + id
  {
  }

  /** So does one that only carries the project name built from the id. */
  lemma ProjectNameLeadsBack(id: string, configPath: string, r: DockerResource)
    requires IsSanitized(id) && LABEL_INSTANCE !in r.labels && LABEL_PROJECT in r.labels
    requires r.labels[LABEL_PROJECT] == NewDockerPlan(id, configPath).projectName
    ensures ResourceInstanceID(r) == id
  {
    ProjectNameOf(id, configPath);
    MissingLabel(r, LABEL_INSTANCE);
    ProjectLabel(id, r);
    AfterPrefix(id);
  }

  lemma ProjectLabel(id: string, r: DockerResource)
    requires IsSanitized(id) && LABEL_PROJECT in r.labels && r.labels[LABEL_PROJECT] == PROJECT_PREFIX + id
    ensures LabelOf(r, LABEL_PROJECT) == PROJECT_PREFIX + id
  {
    ProjectHasNoSpace(id);
  }

  lemma AfterPrefix(id: string)
    ensures id != "" ==> ProjectID(PROJECT_PREFIX + id) == id
  {
    assert (PROJECT_PREFIX + id)[|PROJECT_PREFIX|..] == id;
  }

  /** A project names an instance exactly when it is more than the prefix. */
  lemma ProjectIDIff(project: string, id: string)
    requires id != ""
    ensures ProjectID(project) == id <==> project == "xcli-" + id
    ensures ProjectID(project) == "" <==> forall other :: other != "" ==> project != "xcli-" + other
  {
    AfterPrefix(id);
    if HasPrefix(project, PROJECT_PREFIX) && |project| > |PROJECT_PREFIX| {
      var rest := project[|PROJECT_PREFIX|..];
      assert project == "xcli-" + rest && rest != "";
    } else {
      forall other | other != "" ensures project != "xcli-" + other {
        assert HasPrefix("xcli-" + other, PROJECT_PREFIX);
      }
    }
  }

  /** The items with that key, in the order they were found. */
  function GroupBy<T>(key: T -> string, items: seq<T>, id: string): seq<T> {
    if items == [] then []
    else
      var n := |items| - 1;
      GroupBy(key, items[..n], id) + if key(items[n]) == id then [items[n]] else []
  }

  lemma {:induction false} GroupMembers<T>(key: T -> string, items: seq<T>, id: string, r: T)
    ensures r in GroupBy(key, items, id) <==> r in items && key(r) == id
  {
    if items == [] {
    } else {
      var n := |items| - 1;
      GroupMembers(key, items[..n], id, r);
      assert items == items[..n] + [items[n]];
    }
  }

  method GroupItems<T>(key: T -> string, items: seq<T>) returns (groups: map<string, seq<T>>)
    ensures forall id :: id in groups <==> id != "" && GroupBy(key, items, id) != []
    ensures forall id | id in groups :: groups[id] == GroupBy(key, items, id)
  {
    groups := map[];
    for i := 0 to |items|
      invariant forall id :: id in groups <==> id != "" && GroupBy(key, items[..i], id) != []
      invariant forall id | id in groups :: groups[id] == GroupBy(key, items[..i], id)
    {
      assert items[..i + 1][..i] == items[..i];
      var id := key(items[i]);
      if id != "" {
        groups := groups[id := (if id in groups then groups[id] else []) + [items[i]]];
      }
    }
    assert items[..|items|] == items;
  }

  // ---- One instance ----

  datatype LiveState = LiveState(
    pids: map<string, bool>, ports: map<string, bool>, resources: seq<DockerResource>, backingExists: bool)

  datatype ReconciledInstance = ReconciledInstance(
    manifest: Manifest, instanceID: string, status: Status, registryPresent: bool, orphan: bool, live: LiveState)

  predicate HasContainer(resources: seq<DockerResource>) {
    exists r :: r in resources && r.kind == CONTAINER
  }

  predicate SomeTrue(values: map<string, bool>) {
    exists k :: k in values && values[k]
  }

  function LivePIDs(pids: map<string, int>, host: HostView): map<string, bool> {
    map name | name in pids :: pids[name] > 0 && pids[name] in host.alivePIDs
  }

  function LivePorts(named: map<string, int>, host: HostView): map<string, bool> {
    map name | name in named && named[name] > 0 :: named[name] in host.boundPorts
  }

  /**
   * What the reconciler reports for a manifest of the registry, when the plan was listed as `named`.  Here the bound
   * ports of the host are those that accept a connection.
   */
  ghost predicate ReportsBy(
      e: ReconciledInstance, m: Manifest, host: HostView, resources: seq<DockerResource>, named: map<string, int>) {
    && e.manifest == m && e.instanceID == m.instanceID
         && e.registryPresent && !e.orphan && e.live.resources == resources
    && e.live.pids == LivePIDs(m.pids, host) && e.live.ports == LivePorts(named, host)
    && (e.live.backingExists <==> BackedBy(m, host, named) || HasContainer(resources))
    && e.status == (if m.status in {Running, Reserved} && !e.live.backingExists then Stale
                    else if m.status == Unset then Created else m.status)
  }

  ghost predicate Reports(e: ReconciledInstance, m: Manifest, host: HostView, resources: seq<DockerResource>) {
    exists named :: IsNamedPorts(m.ports, named) && ReportsBy(e, m, host, resources, named)
  }

  /** The first configuration path that a label names. */
  function OrphanConfig(resources: seq<DockerResource>): string {
    if resources == [] then ""
    else if LabelOf(resources[0], LABEL_CONFIG) != "" then LabelOf(resources[0], LABEL_CONFIG)
    else OrphanConfig(resources[1..])
  }

  /** That is the first one that is not blank, or none. */
  lemma {:induction false} OrphanConfigAt(resources: seq<DockerResource>, i: nat)
    requires i <= |resources| && forall j | 0 <= j < i :: LabelOf(resources[j], LABEL_CONFIG) == ""
    requires i < |resources| ==> LabelOf(resources[i], LABEL_CONFIG) != ""
    ensures OrphanConfig(resources) == if i < |resources| then LabelOf(resources[i], LABEL_CONFIG) else ""
    decreases i
  {
    if i > 0 { OrphanConfigAt(resources[1..], i - 1); }
  }

  const NO_PORTS := PortPlan(0, 0, 0, 0, 0, 0, 0, 0, 0, 0, 0, 0, 0, 0, 0, 0, 0, 0, 0, 0, map[])

  function OrphanOf(id: string, resources: seq<DockerResource>): ReconciledInstance {
    var configPath := OrphanConfig(resources);
    ReconciledInstance(
      Manifest(id, Orphan, "", configPath, NO_PORTS, NewDockerPlan(id, configPath), map[], map[], map[], 0, 0, ""),
      id, Orphan, false, true, LiveState(map[], map[], resources, |resources| > 0))
  }

  /** An orphan stands for its resources alone: it has no ports, processes or root, and Docker's names for its id. */
  lemma OrphanShows(id: string, resources: seq<DockerResource>)
    ensures var e := OrphanOf(id, resources);
      && e.instanceID == id && e.status == Orphan && e.orphan && !e.registryPresent
      && e.live.resources == resources && e.live.pids == map[] && e.live.ports == map[]
      && (e.live.backingExists <==> resources != [])
      && e.manifest.instanceID == id && e.manifest.status == Orphan && e.manifest.rootDir == ""
      && e.manifest.configPath == OrphanConfig(resources)
      && e.manifest.docker == NewDockerPlan(id, OrphanConfig(resources))
      && e.manifest.pids == map[] && PortSet(e.manifest.ports) == {}
  {
    forall n | IsPortName({}, n) ensures PortAt(NO_PORTS, n) == 0 {
    }
    forall q ensures q !in PortSet(NO_PORTS) {
      PortSetMember(NO_PORTS, q);
    }
  }

  method CheckPIDs(pids: map<string, int>, host: HostView) returns (r: map<string, bool>)
    ensures r == LivePIDs(pids, host)
  {
    r := map[];
    var remaining := pids.Keys;
    while remaining != {}
      invariant remaining <= pids.Keys
      invariant r == map name | name in pids && name !in remaining :: pids[name] > 0 && pids[name] in host.alivePIDs
      decreases remaining
    {
      var name := AnyKey(remaining);
      r := r[name := pids[name] > 0 && pids[name] in host.alivePIDs];
      remaining := remaining - {name};
    }
  }

  method CheckPorts(p: PortPlan, host: HostView) returns (r: map<string, bool>, ghost named: map<string, int>)
    ensures IsNamedPorts(p, named) && r == LivePorts(named, host)
    ensures LabelsDistinct(p.networks.Keys) ==> forall n | IsPortName(p.networks.Keys, n) && PortAt(p, n) > 0 ::
      Label(n) in r && (r[Label(n)] <==> PortAt(p, n) in host.boundPorts)
  {
    var ports := NamedPorts(p);
    named := ports;
    r := map[];
    var names := ports.Keys;
    while names != {}
      invariant names <= ports.Keys
      invariant r == map name | name in ports && name !in names && ports[name] > 0 :: ports[name] in host.boundPorts
      decreases names
    {
      var name := AnyKey(names);
      if ports[name] > 0 { r := r[name := ports[name] in host.boundPorts]; }
      names := names - {name};
    }
    if LabelsDistinct(p.networks.Keys) {
      forall n | IsPortName(p.networks.Keys, n) ensures Label(n) in ports && ports[Label(n)] == PortAt(p, n) {
        KeyOfName(p, ports, n);
      }
    }
  }

  /** Some listed port is bound exactly when a live entry says so. */
  lemma SomeLivePort(named: map<string, int>, host: HostView)
    ensures SomeTrue(LivePorts(named, host)) <==> Positive(named) * host.boundPorts != {}
  {
    if k :| k in LivePorts(named, host) && LivePorts(named, host)[k] {
      assert named[k] in Positive(named) * host.boundPorts;
    }
    if Positive(named) * host.boundPorts != {} {
      var q := Member(Positive(named) * host.boundPorts);
      var k :| k in named && named[k] > 0 && named[k] == q;
      assert LivePorts(named, host)[k];
    }
  }

  method AnyTrue(values: map<string, bool>) returns (found: bool)
    ensures found <==> SomeTrue(values)
  {
    var remaining := values.Keys;
    while remaining != {}
      invariant remaining <= values.Keys && forall k | k in values && k !in remaining :: !values[k]
      decreases remaining
    {
      var k := AnyKey(remaining);
      if values[k] { return true; }
      remaining := remaining - {k};
    }
    return false;
  }

  method HasDockerContainer(resources: seq<DockerResource>) returns (found: bool)
    ensures found <==> HasContainer(resources)
  {
    for i := 0 to |resources|
      invariant forall k | 0 <= k < i :: resources[k].kind != CONTAINER
    {
      if resources[i].kind == CONTAINER { return true; }
    }
    return false;
  }

  lemma SomeLivePID(pids: map<string, int>, host: HostView)
    ensures SomeTrue(LivePIDs(pids, host))
            <==> exists name :: name in pids && pids[name] > 0 && pids[name] in host.alivePIDs
  {
    if name :| name in pids && pids[name] > 0 && pids[name] in host.alivePIDs {
      assert LivePIDs(pids, host)[name];
    }
  }

  method ReconcileManifest(m: Manifest, host: HostView, resources: seq<DockerResource>) returns (e: ReconciledInstance)
    ensures Reports(e, m, host, resources)
    ensures e.manifest == m && e.instanceID == m.instanceID && e.registryPresent && !e.orphan
    ensures e.live.resources == resources && e.live.pids.Keys == m.pids.Keys
    ensures forall name | name in m.pids :: e.live.pids[name] <==> m.pids[name] > 0 && m.pids[name] in host.alivePIDs
    ensures e.live.backingExists <==>
      ((exists name :: name in e.live.pids && e.live.pids[name])
       || (exists key :: key in e.live.ports && e.live.ports[key])
       || (exists r :: r in resources && r.kind == "container"))
    ensures (m.status == Running || m.status == Reserved) && !e.live.backingExists ==> e.status == Stale
    ensures (m.status == Running || m.status == Reserved) && e.live.backingExists ==> e.status == m.status
    ensures m.status == Unset ==> e.status == Created
    ensures m.status != Running && m.status != Reserved && m.status != Unset ==> e.status == m.status
  {
    var pids := CheckPIDs(m.pids, host);
    var ports; ghost var named;
    ports, named := CheckPorts(m.ports, host);
    var livePID := AnyTrue(pids);
    var livePort := AnyTrue(ports);
    var container := HasDockerContainer(resources);
    SomeLivePID(m.pids, host);
    SomeLivePort(named, host);
    var backing := livePID || livePort || container;
    var status := if m.status == Unset then Created else m.status;
    if (m.status == Running || m.status == Reserved) && !backing { status := Stale; }
    e := ReconciledInstance(m, m.instanceID, status, true, false, LiveState(pids, ports, resources, backing));
    assert ReportsBy(e, m, host, resources, named);
  }

  // ---- All instances ----

  function EntryID(e: ReconciledInstance): string { e.instanceID }

  function Named(manifests: seq<Manifest>): seq<Manifest> {
    if manifests == [] then []
    else
      var n := |manifests| - 1;
      Named(manifests[..n]) + if manifests[n].instanceID != "" then [manifests[n]] else []
  }

  function IDsOf(manifests: seq<Manifest>): set<string> {
    set m | m in manifests :: m.instanceID
  }

  function ManifestIDs(manifests: seq<Manifest>): set<string> {
    IDsOf(Named(manifests))
  }

  function ResourceIDs(key: DockerResource -> string, resources: seq<DockerResource>): set<string> {
    set r | r in resources && key(r) != "" :: key(r)
  }

  ghost predicate AllReported(
      present: seq<ReconciledInstance>, named: seq<Manifest>, host: HostView, key: DockerResource -> string,
      resources: seq<DockerResource>)
  {
    |present| == |named| && forall i | 0 <= i < |named| ::
      Reports(present[i], named[i], host, GroupBy(key, resources, named[i].instanceID))
  }

  function Orphans(
      ids: seq<string>, key: DockerResource -> string, resources: seq<DockerResource>): seq<ReconciledInstance>
  {
    seq(|ids|, i requires 0 <= i < |ids| => OrphanOf(ids[i], GroupBy(key, resources, ids[i])))
  }

  /** One entry for each manifest with an id, one for each id that only resources have; ascending by id. */
  ghost predicate Reconciles(
      instances: seq<ReconciledInstance>, manifests: seq<Manifest>, host: HostView, key: DockerResource -> string,
      resources: seq<DockerResource>, present: seq<ReconciledInstance>, orphanIDs: seq<string>) {
    && AllReported(present, Named(manifests), host, key, resources)
    && NoDuplicates(orphanIDs) && Elements(orphanIDs) == ResourceIDs(key, resources) - ManifestIDs(manifests)
    && multiset(instances) == multiset(present + Orphans(orphanIDs, key, resources))
    && SortedByKey(EntryID, instances)
  }

  datatype ReconcileResult = ReconcileResult(instances: seq<ReconciledInstance>, dockerError: Option<string>)

  /** What Docker listed and the error it reported are given; that error does not fail the reconciliation. */
  method ReconcileAll(
      registry: ManifestRegistry, host: HostView, resources: seq<DockerResource>, dockerError: Option<string>)
    returns (r: Result<ReconcileResult, RegistryError>,
             ghost manifests: seq<Manifest>, ghost present: seq<ReconciledInstance>, ghost orphanIDs: seq<string>)
    ensures r.Err? <==> AnyGarbled(registry.files)
    ensures r.Ok? ==> Lists(registry.files, registry.files.Keys, manifests)
    ensures r.Ok? ==> r.value.dockerError == dockerError
    ensures r.Ok? ==> Reconciles(r.value.instances, manifests, host, ResourceInstanceID, resources, present, orphanIDs)
  {
    var loaded := registry.LoadAll();
    manifests, present, orphanIDs := [], [], [];
    if loaded.Err? { return Err(loaded.error), manifests, present, orphanIDs; }
    manifests := loaded.value;
    var instances;
    instances, present, orphanIDs := ReconcileLoaded(loaded.value, host, ResourceInstanceID, resources);
    r := Ok(ReconcileResult(instances, dockerError));
  }

  method ReconcileLoaded(
      manifests: seq<Manifest>, host: HostView, key: DockerResource -> string, resources: seq<DockerResource>)
    returns (instances: seq<ReconciledInstance>, ghost present: seq<ReconciledInstance>, ghost orphanIDs: seq<string>)
    ensures Reconciles(instances, manifests, host, key, resources, present, orphanIDs)
  {
    var groups := GroupItems(key, resources);
    var entries, seen := ReconcilePresent(manifests, host, key, resources, groups);
    present := entries;
    GroupIDs(key, resources, groups);
    var ids := SortedKeys(groups.Keys - seen);
    orphanIDs := ids;
    assert forall id | id in ids :: id in Elements(ids);
    var orphans := ReconcileOrphans(ids, key, resources, groups);
    instances := SortByKey(EntryID, entries + orphans);
  }

  method ReconcileOrphans(
      ids: seq<string>, ghost key: DockerResource -> string, ghost resources: seq<DockerResource>,
      groups: map<string, seq<DockerResource>>)
    returns (orphans: seq<ReconciledInstance>)
    requires forall id | id in ids :: id in groups && groups[id] == GroupBy(key, resources, id)
    ensures orphans == Orphans(ids, key, resources)
  {
    orphans := [];
    for i := 0 to |ids|
      invariant |orphans| == i
      invariant forall j | 0 <= j < i :: orphans[j] == OrphanOf(ids[j], GroupBy(key, resources, ids[j]))
    {
      orphans := orphans + [OrphanOf(ids[i], groups[ids[i]])];
    }
  }

  lemma GroupIDs(
      key: DockerResource -> string, resources: seq<DockerResource>, groups: map<string, seq<DockerResource>>)
    requires forall id :: id in groups <==> id != "" && GroupBy(key, resources, id) != []
    ensures groups.Keys == ResourceIDs(key, resources)
  {
    forall id ensures id in groups <==> id in ResourceIDs(key, resources) {
      var group := GroupBy(key, resources, id);
      if group != [] { GroupMembers(key, resources, id, group[0]); }
      forall r | r in resources && key(r) == id ensures group != [] {
        GroupMembers(key, resources, id, r);
      }
    }
  }

  method ReconcilePresent(
      manifests: seq<Manifest>, host: HostView, key: DockerResource -> string, resources: seq<DockerResource>,
      groups: map<string, seq<DockerResource>>)
    returns (present: seq<ReconciledInstance>, seen: set<string>)
    requires forall id :: id in groups <==> id != "" && GroupBy(key, resources, id) != []
    requires forall id | id in groups :: groups[id] == GroupBy(key, resources, id)
    ensures AllReported(present, Named(manifests), host, key, resources) && seen == ManifestIDs(manifests)
  {
    present, seen := [], {};
    ghost var named: seq<Manifest> := [];
    for i := 0 to |manifests|
      invariant named == Named(manifests[..i]) && seen == IDsOf(named)
      invariant AllReported(present, named, host, key, resources)
    {
      assert manifests[..i + 1][..i] == manifests[..i];
      var m := manifests[i];
      if m.instanceID != "" {
        seen := seen + {m.instanceID};
        present := ReconcileNext(present, m, host, key, resources,
            if m.instanceID in groups then groups[m.instanceID] else [], named);
        named := named + [m];
      }
    }
    assert manifests[..|manifests|] == manifests;
  }

  method ReconcileNext(
      present: seq<ReconciledInstance>, m: Manifest, host: HostView, ghost key: DockerResource -> string,
      ghost resources: seq<DockerResource>, group: seq<DockerResource>, ghost named: seq<Manifest>)
    returns (more: seq<ReconciledInstance>)
    requires AllReported(present, named, host, key, resources) && group == GroupBy(key, resources, m.instanceID)
    ensures AllReported(more, named + [m], host, key, resources)
  {
    var e := ReconcileManifest(m, host, group);
    ReportedSnoc(present, named, host, key, resources, e, m);
    more := present + [e];
  }

  lemma ReportedSnoc(
      present: seq<ReconciledInstance>, named: seq<Manifest>, host: HostView, key: DockerResource -> string,
      resources: seq<DockerResource>, e: ReconciledInstance, m: Manifest)
    requires AllReported(present, named, host, key, resources)
    requires Reports(e, m, host, GroupBy(key, resources, m.instanceID))
    ensures AllReported(present + [e], named + [m], host, key, resources)
  {
  }

  // ---- Nothing is lost or reported twice ----

  predicate DistinctIDs(instances: seq<ReconciledInstance>) {
    forall i, j | 0 <= i < j < |instances| :: instances[i].instanceID != instances[j].instanceID
  }

  predicate DistinctManifests(manifests: seq<Manifest>) {
    forall i, j | 0 <= i < j < |manifests| :: manifests[i].instanceID != manifests[j].instanceID
  }

  lemma {:induction false} NamedMembers(manifests: seq<Manifest>)
    ensures forall m :: m in Named(manifests) <==> m in manifests && m.instanceID != ""
    ensures DistinctManifests(manifests) ==> DistinctManifests(Named(manifests))
  {
    if manifests == [] {
    } else {
      var n := |manifests| - 1;
      NamedMembers(manifests[..n]);
      assert manifests == manifests[..n] + [manifests[n]];
      if DistinctManifests(manifests) {
        assert forall m | m in manifests[..n] :: m.instanceID != manifests[n].instanceID;
      }
    }
  }

  lemma PermutedDistinct(a: seq<ReconciledInstance>, b: seq<ReconciledInstance>)
    requires DistinctIDs(a) && multiset(a) == multiset(b)
    ensures DistinctIDs(b)
  {
    SameMultisetNoDuplicates(a, b);
    SameMultisetMembers(a, b);
    forall i, j | 0 <= i < j < |b| ensures b[i].instanceID != b[j].instanceID {
      assert b[i] in a && b[j] in a && b[i] != b[j];
    }
  }

  lemma PartsDistinct(
      present: seq<ReconciledInstance>, named: seq<Manifest>, orphans: seq<ReconciledInstance>, ids: seq<string>)
    requires |present| == |named| && forall i | 0 <= i < |present| :: present[i].instanceID == named[i].instanceID
    requires |orphans| == |ids| && forall i | 0 <= i < |orphans| :: orphans[i].instanceID == ids[i]
    requires DistinctManifests(named) && NoDuplicates(ids) && forall m | m in named :: m.instanceID !in ids
    ensures DistinctIDs(present + orphans)
  {
    var all := present + orphans;
    forall i, j | 0 <= i < j < |all| ensures all[i].instanceID != all[j].instanceID {
      assert j >= |present| ==> all[j].instanceID == ids[j - |present|];
      assert i < |present| ==> all[i].instanceID == named[i].instanceID && named[i] in named;
    }
  }

  lemma EntriesDistinct(
      manifests: seq<Manifest>, host: HostView, key: DockerResource -> string, resources: seq<DockerResource>,
      present: seq<ReconciledInstance>, orphanIDs: seq<string>)
    requires DistinctManifests(manifests) && AllReported(present, Named(manifests), host, key, resources)
    requires NoDuplicates(orphanIDs) && Elements(orphanIDs) == ResourceIDs(key, resources) - ManifestIDs(manifests)
    ensures DistinctIDs(present + Orphans(orphanIDs, key, resources))
  {
    NamedMembers(manifests);
    var named := Named(manifests);
    forall i | 0 <= i < |present| ensures present[i].instanceID == named[i].instanceID {
      assert Reports(present[i], named[i], host, GroupBy(key, resources, named[i].instanceID));
    }
    forall m | m in named ensures m.instanceID !in orphanIDs {
      assert m.instanceID !in Elements(orphanIDs);
    }
    PartsDistinct(present, named, Orphans(orphanIDs, key, resources), orphanIDs);
  }

  /**
   * With distinct ids, the report holds each id once, in ascending order, and every resource with that id stands with
   * it.
   */
  lemma ReportIsComplete(
      instances: seq<ReconciledInstance>, manifests: seq<Manifest>, host: HostView, key: DockerResource -> string,
      resources: seq<DockerResource>, present: seq<ReconciledInstance>, orphanIDs: seq<string>)
    requires DistinctManifests(manifests)
    requires Reconciles(instances, manifests, host, key, resources, present, orphanIDs)
    ensures DistinctIDs(instances) && SortedByKey(EntryID, instances)
    ensures forall e | e in instances :: e.live.resources == GroupBy(key, resources, e.instanceID)
    ensures forall e | e in instances :: e.orphan <==> e.instanceID !in ManifestIDs(manifests)
  {
    EntriesDistinct(manifests, host, key, resources, present, orphanIDs);
    var all := present + Orphans(orphanIDs, key, resources);
    PermutedDistinct(all, instances);
    SameMultisetMembers(all, instances);
    forall e | e in instances
      ensures e.live.resources == GroupBy(key, resources, e.instanceID)
      ensures e.orphan <==> e.instanceID !in ManifestIDs(manifests)
    {
      var i :| 0 <= i < |all| && all[i] == e;
      if i < |present| {
        assert Named(manifests)[i] in Named(manifests);
      } else {
        assert orphanIDs[i - |present|] in Elements(orphanIDs);
      }
    }
  }

  /** Every manifest with an id has an entry. */
  lemma ManifestIsReported(
      instances: seq<ReconciledInstance>, manifests: seq<Manifest>, host: HostView, key: DockerResource -> string,
      resources: seq<DockerResource>, present: seq<ReconciledInstance>, orphanIDs: seq<string>, m: Manifest)
    requires Reconciles(instances, manifests, host, key, resources, present, orphanIDs)
    requires m in manifests && m.instanceID != ""
    ensures exists e :: e in instances && Reports(e, m, host, GroupBy(key, resources, m.instanceID))
  {
    NamedMembers(manifests);
    var i :| 0 <= i < |Named(manifests)| && Named(manifests)[i] == m;
    SameMultisetMembers(present + Orphans(orphanIDs, key, resources), instances);
    assert (present + Orphans(orphanIDs, key, resources))[i] == present[i];
    assert present[i] in instances;
  }

  /** Every resource whose instance can be told has an entry, the same one for the whole group. */
  lemma ResourceIsReported(
      instances: seq<ReconciledInstance>, manifests: seq<Manifest>, host: HostView, key: DockerResource -> string,
      resources: seq<DockerResource>, present: seq<ReconciledInstance>, orphanIDs: seq<string>, r: DockerResource)
    requires DistinctManifests(manifests)
    requires Reconciles(instances, manifests, host, key, resources, present, orphanIDs)
    requires r in resources && key(r) != ""
    ensures exists e :: e in instances && r in e.live.resources
    ensures forall e | e in instances :: r in e.live.resources <==> e.instanceID == key(r)
  {
    ReportIsComplete(instances, manifests, host, key, resources, present, orphanIDs);
    forall e | e in instances ensures r in e.live.resources <==> e.instanceID == key(r) {
      GroupMembers(key, resources, e.instanceID, r);
    }
    var all := present + Orphans(orphanIDs, key, resources);
    SameMultisetMembers(all, instances);
    assert key(r) in ResourceIDs(key, resources);
    if key(r) in ManifestIDs(manifests) {
      var m :| m in Named(manifests) && m.instanceID == key(r);
      NamedMembers(manifests);
      ManifestIsReported(instances, manifests, host, key, resources, present, orphanIDs, m);
    } else {
      assert key(r) in Elements(orphanIDs);
      var i :| 0 <= i < |orphanIDs| && orphanIDs[i] == key(r);
      assert all[|present| + i].instanceID == key(r);
      assert all[|present| + i] in instances;
    }
  }

  /** A manifest is reported stale when it claims to be in use and nothing backs it, or when it was stored as stale. */
  lemma StaleIff(
      e: ReconciledInstance, m: Manifest, host: HostView, resources: seq<DockerResource>, named: map<string, int>)
    requires ReportsBy(e, m, host, resources, named)
    ensures e.status == Stale
            <==> (m.status == Stale
                  || (m.status in {Running, Reserved} && !BackedBy(m, host, named) && !HasContainer(resources)))
  {
  }

  /**
   * The reconciler connects to a port, the allocator tries to listen on it; both ask whether a process lives.  A stale
   * running instance keeps its ports.  A stale reservation keeps them through its grace period, and after that
   * exactly as long as the allocator finds one of them taken that the reconciler could not reach.
   */
  lemma StaleAndAllocator(
      e: ReconciledInstance, m: Manifest, reached: HostView, resources: seq<DockerResource>, named: map<string, int>,
      taken: HostView, listed: map<string, int>, now: int)
    requires ReportsBy(e, m, reached, resources, named) && e.status == Stale
    requires reached.alivePIDs == taken.alivePIDs
    ensures m.status == Running ==> ActiveBy(m, now, taken, listed)
    ensures m.status == Reserved ==>
      (ActiveBy(m, now, taken, listed)
       <==> (m.updatedAt != 0 && now - m.updatedAt <= GRACE_PERIOD) || Positive(listed) * taken.boundPorts != {})
    ensures m.status == Reserved ==> Positive(named) * reached.boundPorts == {}
  {
  }
}
