/**
 * Carrying out a multi-project release and reporting it (pkg/release/report.go, github.go,
 * pkg/commands/lab_release.go).
 * What GitHub answers is a set of oracles; `Service.released` records the releases it was asked for.
 */
module ReleaseExecution {
  import opened Common
  import opened ReleaseOrder

  // ---- The report ----

  datatype EntryStatus = Succeeded | Failed | TimedOut | Skipped | Released

  datatype ReportEntry = ReportEntry(
    project: string, version: string, duration: int, status: EntryStatus, error: string,
    url: string, dependsOn: seq<string>, skipped: bool, headSha: string)

  datatype ReleaseResult = ReleaseResult(
    project: string, version: string, url: string, runID: string, success: bool, error: Option<string>)

  datatype WatchResult = WatchResult(
    status: string, conclusion: string, duration: int, headSha: string, error: Option<string>)

  function ReleaseEntry(r: ReleaseResult, dependsOn: seq<string>): ReportEntry {
    ReportEntry(
      r.project, if r.version == "" then "-" else r.version, 0,
      if r.success then Released else Failed,
      if r.success || r.error.None? then "" else r.error.value,
      r.url, dependsOn, false, "")
  }

  function SkippedEntry(project: string, version: string, reason: string, dependsOn: seq<string>): ReportEntry {
    ReportEntry(project, version, 0, Skipped, reason, "", dependsOn, true, "")
  }

  function Watched(e: ReportEntry, w: WatchResult): ReportEntry {
    var timed := e.(duration := w.duration, headSha := w.headSha);
    if w.conclusion == "success" then timed.(status := Succeeded)
    else if w.status == "timed_out" then timed.(status := TimedOut, error := "build timed out")
    else timed.(status := Failed, error := if w.error.Some? then w.error.value else "build " + w.conclusion)
  }

  predicate IsFirst(entries: seq<ReportEntry>, i: nat)
    requires i < |entries|
  {
    forall j | 0 <= j < i :: entries[j].project != entries[i].project
  }

  /** The first entry of each watched project takes its watch result; nothing else changes. */
  predicate Updated(before: seq<ReportEntry>, after: seq<ReportEntry>, results: map<string, WatchResult>) {
    |after| == |before| && forall i | 0 <= i < |before| ::
      after[i] ==
        if before[i].project in results && IsFirst(before, i) then Watched(before[i], results[before[i].project])
        else before[i]
  }

  lemma UpdatedThen(
      a: seq<ReportEntry>, b: seq<ReportEntry>, c: seq<ReportEntry>, results: map<string, WatchResult>, project: string,
      w: WatchResult)
    requires Updated(a, b, results) && Updated(b, c, map[project := w]) && project !in results
    ensures Updated(a, c, results[project := w])
  {
    assert forall i | 0 <= i < |a| :: b[i].project == a[i].project;
    forall i | 0 <= i < |a| ensures IsFirst(b, i) <==> IsFirst(a, i) {
    }
  }

  predicate IsSucceeded(e: ReportEntry) { e.status == Succeeded }
  predicate IsFailed(e: ReportEntry) { e.status == Failed || e.status == TimedOut }
  predicate IsSkipped(e: ReportEntry) { e.skipped }
  predicate IsReleased(e: ReportEntry) { e.status == Released }

  function CountWhere(entries: seq<ReportEntry>, p: ReportEntry -> bool): nat {
    if entries == [] then 0
    else CountWhere(entries[..|entries| - 1], p) + if p(entries[|entries| - 1]) then 1 else 0
  }

  /** A skipped entry that a watch result has overwritten: it is counted under both. */
  predicate IsOvercounted(e: ReportEntry) { e.skipped && e.status != Skipped }

  lemma {:induction false} CountsSum(entries: seq<ReportEntry>)
    requires forall e | e in entries :: e.status == Skipped ==> e.skipped
    ensures CountWhere(entries, IsSucceeded) + CountWhere(entries, IsFailed)
            + CountWhere(entries, IsSkipped) + CountWhere(entries, IsReleased)
            == |entries| + CountWhere(entries, IsOvercounted)
  {
    if entries == [] {
    } else {
      CountsSum(entries[..|entries| - 1]);
      assert entries[|entries| - 1] in entries;
    }
  }

  lemma {:induction false} CountZero(entries: seq<ReportEntry>, p: ReportEntry -> bool)
    ensures CountWhere(entries, p) == 0 <==> forall e | e in entries :: !p(e)
  {
    if entries == [] {
    } else {
      var n := |entries| - 1;
      CountZero(entries[..n], p);
      assert entries == entries[..n] + [entries[n]];
    }
  }

  class ReleaseReport {
    var entries: seq<ReportEntry>

    constructor ()
      ensures entries == []
    {
      entries := [];
    }

    method AddRelease(result: ReleaseResult, dependsOn: seq<string>)
      modifies this
      ensures entries == old(entries) + [ReleaseEntry(result, dependsOn)]
      ensures var e := entries[|old(entries)|];
        && e.project == result.project && e.url == result.url && e.dependsOn == dependsOn
        && (result.version == "" ==> e.version == "-") && (result.version != "" ==> e.version == result.version)
        && (result.success ==> e.status == Released && e.error == "")
        && (!result.success ==> e.status == Failed)
        && (!result.success && result.error.Some? ==> e.error == result.error.value)
        && (!result.success && result.error.None? ==> e.error == "")
        && e.duration == 0 && e.headSha == "" && !e.skipped
    {
      var version := if result.version == "" then "-" else result.version;
      var status, message := Failed, "";
      if result.success {
        status := Released;
      } else if result.error.Some? {
        message := result.error.value;
      }
      entries := entries + [ReportEntry(result.project, version, 0, status, message, result.url, dependsOn, false, "")];
    }

    method AddSkipped(project: string, version: string, reason: string, dependsOn: seq<string>)
      modifies this
      ensures entries == old(entries) + [SkippedEntry(project, version, reason, dependsOn)]
      ensures var e := entries[|old(entries)|];
        && e.project == project && e.version == version && e.error == reason && e.dependsOn == dependsOn
        && e.status == Skipped && e.skipped && e.url == "" && e.duration == 0 && e.headSha == ""
    {
      entries := entries + [ReportEntry(project, version, 0, Skipped, reason, "", dependsOn, true, "")];
    }

    method UpdateWithWatchResult(project: string, w: WatchResult)
      modifies this
      ensures Updated(old(entries), entries, map[project := w])
      ensures |entries| == |old(entries)|
      ensures forall i | 0 <= i < |entries| && old(entries)[i].project != project :: entries[i] == old(entries)[i]
      ensures forall i, j | 0 <= j < i < |entries| && old(entries)[j].project == project ::
        entries[i] == old(entries)[i]
      ensures forall i | 0 <= i < |entries| && old(entries)[i].project == project
        && (forall j | 0 <= j < i :: old(entries)[j].project != project) ::
          var before, e := old(entries)[i], entries[i];
          && e.project == project && e.duration == w.duration && e.headSha == w.headSha
          && e.version == before.version && e.url == before.url
          && e.dependsOn == before.dependsOn && e.skipped == before.skipped
          && (w.conclusion == "success" ==> e.status == Succeeded && e.error == before.error)
          && (w.conclusion != "success" && w.status == "timed_out" ==>
                e.status == TimedOut && e.error == "build timed out")
          && (w.conclusion != "success" && w.status != "timed_out" ==>
                e.status == Failed && e.error == if w.error.Some? then w.error.value else "build " + w.conclusion)
    {
      for i := 0 to |entries|
        invariant entries == old(entries)
        invariant forall j | 0 <= j < i :: entries[j].project != project
      {
        if entries[i].project == project {
          entries := entries[i := Watched(entries[i], w)];
          break;
        }
      }
    }

    /** The results come in any order. */
    method UpdateFromMultiWatch(results: map<string, WatchResult>)
      modifies this
      ensures Updated(old(entries), entries, results)
    {
      var remaining := results.Keys;
      ghost var done: map<string, WatchResult> := map[];
      while remaining != {}
        invariant remaining !! done.Keys && remaining + done.Keys == results.Keys
        invariant forall p | p in done :: done[p] == results[p]
        invariant Updated(old(entries), entries, done)
        decreases remaining
      {
        var project := AnyKey(remaining);
        ghost var before := entries;
        UpdateWithWatchResult(project, results[project]);
        UpdatedThen(old(entries), before, entries, done, project, results[project]);
        done := done[project := results[project]];
        remaining := remaining - {project};
      }
      assert done == results;
    }

    method Count(p: ReportEntry -> bool) returns (count: nat)
      ensures count == CountWhere(entries, p)
    {
      count := 0;
      for i := 0 to |entries|
        invariant count == CountWhere(entries[..i], p)
      {
        assert entries[..i + 1][..i] == entries[..i];
        if p(entries[i]) { count := count + 1; }
      }
      assert entries[..|entries|] == entries;
    }
  }

  // ---- The release service ----

  datatype Config = Config(project: string, isSemver: bool, bump: string, newVersion: string)
  datatype WatchItem = WatchItem(project: string, runID: string)

  /** What the service reports for a release that GitHub accepted; a refusal is its error. */
  datatype Accepted = Accepted(version: string, url: string, runID: string)

  datatype GitHub = GitHub(
    semver: (string, string) -> Result<Accepted, string>,
    workflow: string -> Result<Accepted, string>,
    watch: (string, string) -> WatchResult,
    watchLast: (string, string) -> WatchResult)

  /** The request made for a configuration: a semver bump or a workflow dispatch. */
  function Asked(gh: GitHub, config: Config): Result<Accepted, string> {
    if config.isSemver then gh.semver(config.project, config.bump) else gh.workflow(config.project)
  }

  function Answer(gh: GitHub, config: Config): Result<ReleaseResult, string> {
    match Asked(gh, config)
    case Err(e) => Err(e)
    case Ok(a) => Ok(ReleaseResult(config.project, a.version, a.url, a.runID, true, None))
  }

  function ItemProjects(items: seq<WatchItem>): set<string> {
    set i | i in items :: i.project
  }

  /** The results of watching builds side by side, by project. */
  function MultiWatch(gh: GitHub, items: seq<WatchItem>): (r: map<string, WatchResult>)
    ensures r.Keys == ItemProjects(items)
  {
    if items == [] then map[]
    else
      var last := items[|items| - 1];
      assert items == items[..|items| - 1] + [last];
      MultiWatch(gh, items[..|items| - 1])[last.project := gh.watchLast(last.project, last.runID)]
  }

  /** A build that is followed under one run id ends as that run does. */
  lemma {:induction false} MultiWatchOf(gh: GitHub, items: seq<WatchItem>, p: string, runID: string)
    requires p in ItemProjects(items) && forall i | i in items && i.project == p :: i.runID == runID
    ensures MultiWatch(gh, items)[p] == gh.watchLast(p, runID)
  {
    var n := |items| - 1;
    assert items == items[..n] + [items[n]];
    if items[n].project != p { MultiWatchOf(gh, items[..n], p, runID); }
  }

  class Service {
    const gh: GitHub
    var released: seq<string>

    constructor (gh: GitHub)
      ensures this.gh == gh && released == []
    {
      this.gh, released := gh, [];
    }

    /**
     * Asks for one more release, whether or not GitHub accepts it; an accepted one is the project's own and a success.
     */
    method ExecuteRelease(config: Config) returns (r: Result<ReleaseResult, string>)
      modifies this
      ensures released == old(released) + [config.project]
      ensures var a := if config.isSemver then gh.semver(config.project, config.bump) else gh.workflow(config.project);
        && (a.Err? ==> r == Err(a.error))
        && (a.Ok? ==>
              r == Ok(ReleaseResult(config.project, a.value.version, a.value.url, a.value.runID, true, None)))
      ensures r == Answer(gh, config)
    {
      released := released + [config.project];
      var answer;
      if config.isSemver {
        answer := gh.semver(config.project, config.bump);
      } else {
        answer := gh.workflow(config.project);
      }
      if answer.Err? { return Err(answer.error); }
      var result := ReleaseResult(config.project, answer.value.version, answer.value.url, answer.value.runID, false,
          None);
      result := result.(success := true);
      return Ok(result);
    }

    method WatchMultiple(items: seq<WatchItem>) returns (results: map<string, WatchResult>)
      ensures results == MultiWatch(gh, items)
    {
      results := map[];
      for i := 0 to |items|
        invariant results == MultiWatch(gh, items[..i])
      {
        assert items[..i + 1][..i] == items[..i];
        results := results[items[i].project := gh.watchLast(items[i].project, items[i].runID)];
      }
      assert items[..|items|] == items;
    }
  }

  function FindConfig(configs: seq<Config>, project: string): (r: Option<Config>)
    ensures r.Some? <==> exists c :: c in configs && c.project == project
    ensures r.Some? ==> r.value in configs && r.value.project == project
    ensures r.Some? ==> exists i | 0 <= i < |configs| ::
      configs[i] == r.value && forall j | 0 <= j < i :: configs[j].project != project
  {
    if configs == [] then None
    else if configs[0].project == project then Some(configs[0])
    else FindConfig(configs[1..], project)
  }

  // ---- What each phase makes of one project ----

  datatype Setup = Setup(gh: GitHub, configs: seq<Config>, deps: Infos, watch: bool)

  /** The releases asked for, the entries reported, the builds left to watch, and the dependencies that failed. */
  datatype Made = Made(released: seq<string>, entries: seq<ReportEntry>, items: seq<WatchItem>, failed: set<string>)

  const NOTHING := Made([], [], [], {})

  function Plus(a: Made, b: Made): Made {
    Made(a.released + b.released, a.entries + b.entries, a.items + b.items, a.failed + b.failed)
  }

  function DependsOn(s: Setup, p: string): seq<string> {
    if p in s.deps then s.deps[p].dependsOn else []
  }

  predicate Configured(s: Setup, p: string) { FindConfig(s.configs, p).Some? }

  function Refused(project: string, error: string): ReleaseResult {
    ReleaseResult(project, "", "", "", false, Some(error))
  }

  /** The release is refused, or its build is watched and does not succeed. */
  predicate FailsFirst(s: Setup, p: string) {
    var config := FindConfig(s.configs, p);
    config.Some? && match Asked(s.gh, config.value)
      case Err(_) => true
      case Ok(a) => a.runID != "" && s.watch && s.gh.watch(p, a.runID).conclusion != "success"
  }

  function MakeFirst(s: Setup, p: string): Made
  {
    var config := FindConfig(s.configs, p);
    if config.None? then NOTHING
    else
      var dependsOn := DependsOn(s, p);
      match Answer(s.gh, config.value)
      case Err(e) => Made([p], [ReleaseEntry(Refused(p, e), dependsOn)], [], {p})
      case Ok(r) =>
        var entry := ReleaseEntry(r, dependsOn);
        if r.runID == "" || !s.watch then Made([p], [entry], [], {})
        else
          var w := s.gh.watch(p, r.runID);
          Made([p], [Watched(entry, w)], [], if w.conclusion == "success" then {} else {p})
  }

  function MakeLater(s: Setup, p: string, dependsOn: seq<string>): Made {
    var config := FindConfig(s.configs, p);
    if config.None? then NOTHING
    else match Answer(s.gh, config.value)
      case Err(e) => Made([p], [ReleaseEntry(Refused(p, e), dependsOn)], [], {})
      case Ok(r) => Made([p], [ReleaseEntry(r, dependsOn)], if r.runID == "" then [] else [WatchItem(p, r.runID)], {})
  }

  function FirstFailed(dependsOn: seq<string>, failed: set<string>): Option<string> {
    if dependsOn == [] then None
    else if dependsOn[0] in failed then Some(dependsOn[0])
    else FirstFailed(dependsOn[1..], failed)
  }

  lemma {:induction false} FirstFailedIff(dependsOn: seq<string>, failed: set<string>)
    ensures FirstFailed(dependsOn, failed).Some? <==> exists d :: d in dependsOn && d in failed
  {
    if dependsOn == [] {
    } else {
      FirstFailedIff(dependsOn[1..], failed);
      assert dependsOn == [dependsOn[0]] + dependsOn[1..];
    }
  }

  lemma {:induction false} FirstFailedAt(dependsOn: seq<string>, failed: set<string>, i: nat)
    requires i < |dependsOn| && dependsOn[i] in failed && forall j | 0 <= j < i :: dependsOn[j] !in failed
    ensures FirstFailed(dependsOn, failed) == Some(dependsOn[i])
    decreases i
  {
    if i > 0 { FirstFailedAt(dependsOn[1..], failed, i - 1); }
  }

  function SkipVersion(s: Setup, p: string): string {
    match FindConfig(s.configs, p)
    case Some(config) => if config.newVersion != "" then config.newVersion else "-"
    case None => "-"
  }

  function MakeSecond(s: Setup, p: string, failed: set<string>): Made
  {
    match FirstFailed(DependsOn(s, p), failed)
    case Some(d) =>
      Made([], [SkippedEntry(p, SkipVersion(s, p), "dependency " + d + " failed", DependsOn(s, p))], [], {})
    case None => MakeLater(s, p, DependsOn(s, p))
  }

  /** A skip names the first failed dependency, and the version that would have been released. */
  lemma SkipShows(s: Setup, p: string, failed: set<string>, i: nat)
    requires i < |DependsOn(s, p)| && DependsOn(s, p)[i] in failed
    requires forall j | 0 <= j < i :: DependsOn(s, p)[j] !in failed
    ensures var made, config := MakeSecond(s, p, failed), FindConfig(s.configs, p);
      && made.released == [] && made.items == [] && made.failed == {} && |made.entries| == 1
      && made.entries[0].error == "dependency " + DependsOn(s, p)[i] + " failed"
      && (config.Some? && config.value.newVersion != "" ==> made.entries[0].version == config.value.newVersion)
      && (config.None? || config.value.newVersion == "" ==> made.entries[0].version == "-")
  {
    FirstFailedAt(DependsOn(s, p), failed, i);
  }

  function MakeOne(s: Setup, phase: Phase, p: string, failed: set<string>): Made
  {
    match phase
    case First => MakeFirst(s, p)
    case Second => MakeSecond(s, p, failed)
    case Third => MakeLater(s, p, [])
  }

  function Making(s: Setup, phase: Phase, failed: set<string>): string -> Made {
    (p: string) => MakeOne(s, phase, p, failed)
  }

  function MakeAll(make: string -> Made, projects: seq<string>): Made {
    if projects == [] then NOTHING
    else
      var n := |projects| - 1;
      Plus(MakeAll(make, projects[..n]), make(projects[n]))
  }

  // ---- The phases ----

  lemma MakeAllStep(make: string -> Made, projects: seq<string>, i: nat)
    requires i < |projects|
    ensures MakeAll(make, projects[..i + 1]) == Plus(MakeAll(make, projects[..i]), make(projects[i]))
  {
    assert projects[..i + 1][..i] == projects[..i];
  }

  /** Everything made of a project is its own. */
  predicate Owns(p: string, made: Made) {
    && (forall e | e in made.entries :: e.project == p) && |made.entries| <= 1
    && (forall x | x in made.released :: x == p)
    && (forall i | i in made.items :: i.project == p)
    && made.failed <= {p}
  }

  ghost predicate KeepsApart(make: string -> Made) {
    forall p :: Owns(p, make(p))
  }

  lemma FirstOwns(s: Setup, p: string)
    ensures Owns(p, MakeFirst(s, p))
  {
  }

  lemma LaterOwns(s: Setup, p: string, dependsOn: seq<string>)
    ensures Owns(p, MakeLater(s, p, dependsOn))
  {
  }

  lemma MakingKeepsApart(s: Setup, phase: Phase, failed: set<string>)
    ensures KeepsApart(Making(s, phase, failed))
  {
    forall p ensures Owns(p, Making(s, phase, failed)(p)) {
      FirstOwns(s, p);
      LaterOwns(s, p, DependsOn(s, p));
      LaterOwns(s, p, []);
    }
  }

  /** What was made of a list of projects was made of one of them. */
  lemma {:induction false} MadeOfOne(make: string -> Made, projects: seq<string>, p: string)
    requires KeepsApart(make)
    ensures var made := MakeAll(make, projects);
      && (forall e: ReportEntry | e.project == p :: e in made.entries <==> p in projects && e in make(p).entries)
      && (p in made.released <==> p in projects && p in make(p).released)
      && (forall i: WatchItem | i.project == p :: i in made.items <==> p in projects && i in make(p).items)
      && (p in made.failed <==> p in projects && p in make(p).failed)
  {
    if projects == [] {
    } else {
      var n := |projects| - 1;
      MadeOfOne(make, projects[..n], p);
      assert projects == projects[..n] + [projects[n]];
      assert Owns(projects[n], make(projects[n]));
    }
  }

  predicate DistinctProjects(entries: seq<ReportEntry>) {
    forall i, j | 0 <= i < j < |entries| :: entries[i].project != entries[j].project
  }

  lemma {:induction false} MadeDistinct(make: string -> Made, projects: seq<string>)
    requires KeepsApart(make) && NoDuplicates(projects)
    ensures DistinctProjects(MakeAll(make, projects).entries)
    ensures forall e | e in MakeAll(make, projects).entries :: e.project in projects
  {
    if projects == [] {
    } else {
      var n := |projects| - 1;
      MadeDistinct(make, projects[..n]);
      assert projects == projects[..n] + [projects[n]];
      assert projects[n] !in projects[..n] && Owns(projects[n], make(projects[n]));
    }
  }

  /** The first phase fails exactly the projects whose release is refused or whose watched build does not succeed. */
  lemma FailedInFirst(s: Setup, projects: seq<string>, x: string)
    ensures x in MakeAll(Making(s, First, {}), projects).failed <==> x in projects && FailsFirst(s, x)
  {
    MakingKeepsApart(s, First, {});
    MadeOfOne(Making(s, First, {}), projects, x);
  }

  lemma UpdatedLast(before: seq<ReportEntry>, e: ReportEntry, after: seq<ReportEntry>, w: WatchResult)
    requires forall o | o in before :: o.project != e.project
    requires Updated(before + [e], after, map[e.project := w])
    ensures after == before + [Watched(e, w)]
  {
    var all := before + [e];
    forall i | 0 <= i < |before| ensures after[i] == before[i] {
      assert before[i] in before && all[i] == before[i];
    }
    assert IsFirst(all, |before|);
  }

  /** What has been released and reported so far. */
  ghost function Recorded(svc: Service, report: ReleaseReport, items: seq<WatchItem>, failed: set<string>): Made
    reads svc, report
  {
    Made(svc.released, report.entries, items, failed)
  }

  lemma PlusAssociative(a: Made, b: Made, c: Made)
    ensures Plus(Plus(a, b), c) == Plus(a, Plus(b, c))
  {
  }

  lemma PlusNothing(a: Made)
    ensures Plus(a, NOTHING) == a
  {
  }

  method ExecutePhase1(s: Setup, svc: Service, report: ReleaseReport, phase1: seq<string>)
    returns (failedDeps: set<string>)
    requires svc.gh == s.gh && NoDuplicates(phase1) && forall p | p in phase1 :: p in s.deps
    requires forall e | e in report.entries :: e.project !in phase1
    modifies svc, report
    ensures Recorded(svc, report, [], failedDeps)
      == Plus(old(Recorded(svc, report, [], {})), MakeAll(Making(s, First, {}), phase1))
  {
    failedDeps := {};
    ghost var before, make := Recorded(svc, report, [], {}), Making(s, First, {});
    PlusNothing(before);
    for i := 0 to |phase1|
      invariant Recorded(svc, report, [], failedDeps) == Plus(before, MakeAll(make, phase1[..i]))
    {
      NoEntryYet(make, phase1, i, before.entries);
      failedDeps := ReleaseFirst(s, svc, report, phase1[i], failedDeps);
      MakeAllStep(make, phase1, i);
      PlusAssociative(before, MakeAll(make, phase1[..i]), make(phase1[i]));
    }
    assert phase1[..|phase1|] == phase1;
  }

  lemma NoEntryYet(make: string -> Made, projects: seq<string>, i: nat, before: seq<ReportEntry>)
    requires exists s :: make == Making(s, First, {})
    requires NoDuplicates(projects) && i < |projects| && forall e | e in before :: e.project !in projects
    ensures forall e | e in before + MakeAll(make, projects[..i]).entries :: e.project != projects[i]
  {
    var s :| make == Making(s, First, {});
    MakingKeepsApart(s, First, {});
    MadeDistinct(make, projects[..i]);
  }

  method ReleaseFirst(s: Setup, svc: Service, report: ReleaseReport, project: string, failedDeps: set<string>)
    returns (failed: set<string>)
    requires svc.gh == s.gh && project in s.deps
    requires forall e | e in report.entries :: e.project != project
    modifies svc, report
    ensures Recorded(svc, report, [], failed)
          == Plus(old(Recorded(svc, report, [], failedDeps)), Making(s, First, {})(project))
  {
    failed := failedDeps;
    var config := FindConfig(s.configs, project);
    if config.None? { return; }
    var dependsOn := s.deps[project].dependsOn;
    var r := svc.ExecuteRelease(config.value);
    if r.Err? {
      report.AddRelease(Refused(project, r.error), dependsOn);
      failed := failed + {project};
      return;
    }
    report.AddRelease(r.value, dependsOn);
    if r.value.runID != "" && s.watch {
      var w := svc.gh.watch(project, r.value.runID);
      report.UpdateWithWatchResult(project, w);
      UpdatedLast(old(report.entries), ReleaseEntry(r.value, dependsOn), report.entries, w);
      if w.conclusion != "success" { failed := failed + {project}; }
    }
  }

  method ReleaseLater(
      s: Setup, svc: Service, report: ReleaseReport, project: string, dependsOn: seq<string>,
      watchItems: seq<WatchItem>)
    returns (items: seq<WatchItem>)
    requires svc.gh == s.gh
    modifies svc, report
    ensures Recorded(svc, report, items, {})
          == Plus(old(Recorded(svc, report, watchItems, {})), MakeLater(s, project, dependsOn))
  {
    items := watchItems;
    var config := FindConfig(s.configs, project);
    if config.None? { return; }
    var r := svc.ExecuteRelease(config.value);
    if r.Err? {
      report.AddRelease(Refused(project, r.error), dependsOn);
      return;
    }
    report.AddRelease(r.value, dependsOn);
    if r.value.runID != "" {
      items := items + [WatchItem(project, r.value.runID)];
    }
  }

  method ExecutePhase2(
      s: Setup, svc: Service, report: ReleaseReport, phase2: seq<string>, failedDeps: set<string>,
      watchItems: seq<WatchItem>)
    returns (items: seq<WatchItem>)
    requires svc.gh == s.gh && forall p | p in phase2 :: p in s.deps
    modifies svc, report
    ensures Recorded(svc, report, items, {})
      == Plus(old(Recorded(svc, report, watchItems, {})), MakeAll(Making(s, Second, failedDeps), phase2))
  {
    items := watchItems;
    ghost var before, make := Recorded(svc, report, items, {}), Making(s, Second, failedDeps);
    PlusNothing(before);
    for i := 0 to |phase2|
      invariant Recorded(svc, report, items, {}) == Plus(before, MakeAll(make, phase2[..i]))
    {
      items := ReleaseSecond(s, svc, report, phase2[i], failedDeps, items);
      MakeAllStep(make, phase2, i);
      PlusAssociative(before, MakeAll(make, phase2[..i]), make(phase2[i]));
    }
    assert phase2[..|phase2|] == phase2;
  }

  method ReleaseSecond(
      s: Setup, svc: Service, report: ReleaseReport, project: string, failedDeps: set<string>,
      watchItems: seq<WatchItem>)
    returns (items: seq<WatchItem>)
    requires svc.gh == s.gh && project in s.deps
    modifies svc, report
    ensures Recorded(svc, report, items, {})
      == Plus(old(Recorded(svc, report, watchItems, {})), Making(s, Second, failedDeps)(project))
  {
    items := watchItems;
    var dependsOn := s.deps[project].dependsOn;
    var culprit := FirstFailed(dependsOn, failedDeps);
    if culprit.Some? {
      report.AddSkipped(project, SkipVersion(s, project), "dependency " + culprit.value + " failed", dependsOn);
    } else {
      items := ReleaseLater(s, svc, report, project, dependsOn, items);
    }
  }

  method ExecutePhase3(s: Setup, svc: Service, report: ReleaseReport, phase3: seq<string>, watchItems: seq<WatchItem>)
    returns (items: seq<WatchItem>)
    requires svc.gh == s.gh
    modifies svc, report
    ensures Recorded(svc, report, items, {})
      == Plus(old(Recorded(svc, report, watchItems, {})), MakeAll(Making(s, Third, {}), phase3))
  {
    items := watchItems;
    ghost var before, make := Recorded(svc, report, items, {}), Making(s, Third, {});
    PlusNothing(before);
    for i := 0 to |phase3|
      invariant Recorded(svc, report, items, {}) == Plus(before, MakeAll(make, phase3[..i]))
    {
      items := ReleaseLater(s, svc, report, phase3[i], [], items);
      MakeAllStep(make, phase3, i);
      PlusAssociative(before, MakeAll(make, phase3[..i]), make(phase3[i]));
    }
    assert phase3[..|phase3|] == phase3;
  }

  // ---- The whole run ----

  /** Everything the three phases make of the selected projects, in order. */
  function MakeRun(s: Setup, ordered: seq<string>): Made {
    var first := MakeAll(Making(s, First, {}), InPhase(ordered, s.deps, First));
    Plus(Plus(first, MakeAll(Making(s, Second, first.failed), InPhase(ordered, s.deps, Second))),
         MakeAll(Making(s, Third, {}), InPhase(ordered, s.deps, Third)))
  }

  /** The project waits for a dependency that failed in the first phase. */
  ghost predicate Blocked(s: Setup, ordered: seq<string>, p: string) {
    HasPhase(s.deps, p, Second)
    && exists d :: d in DependsOn(s, p) && d in InPhase(ordered, s.deps, First) && FailsFirst(s, d)
  }

  ghost predicate HasEntry(entries: seq<ReportEntry>, p: string) {
    exists e :: e in entries && e.project == p
  }

  /** Which projects a phase releases and reports. */
  lemma MadeInPhase(s: Setup, phase: Phase, projects: seq<string>, failed: set<string>, p: string)
    ensures var made := MakeAll(Making(s, phase, failed), projects);
      var skipped := phase == Second && FirstFailed(DependsOn(s, p), failed).Some?;
      && (p in made.released <==> p in projects && Configured(s, p) && !skipped)
      && (HasEntry(made.entries, p) <==> p in projects && (Configured(s, p) || skipped))
      && (forall e | e in made.entries && e.project == p ::
           e.skipped == skipped && (e.skipped <==> e.status == Skipped))
      && (forall i | i in made.items && i.project == p :: p in made.released)
  {
    MakingKeepsApart(s, phase, failed);
    MadeOfOne(Making(s, phase, failed), projects, p);
    MadeOfProject(s, phase, failed, p);
    var entries := Making(s, phase, failed)(p).entries;
    assert entries != [] ==> entries[0] in entries;
  }

  lemma MadeOfProject(s: Setup, phase: Phase, failed: set<string>, p: string)
    ensures var one, skipped := MakeOne(s, phase, p, failed), phase == Second
      && FirstFailed(DependsOn(s, p), failed).Some?;
      && one.released == (if Configured(s, p) && !skipped then [p] else [])
      && (one.entries == [] <==> !Configured(s, p) && !skipped)
      && (forall e | e in one.entries :: e.skipped == skipped && (e.skipped <==> e.status == Skipped))
      && (one.items != [] ==> one.released == [p])
  {
  }

  lemma PhaseLists(ordered: seq<string>, deps: Infos)
    requires NoDuplicates(ordered) && forall q | q in ordered :: q in deps
    ensures NoDuplicates(InPhase(ordered, deps, First)) && NoDuplicates(InPhase(ordered, deps, Second))
    ensures NoDuplicates(InPhase(ordered, deps, Third))
  {
    PhasesPartition(ordered, deps);
    SameMultisetNoDuplicates(ordered, Phases(ordered, deps));
    PartsNoDuplicates(InPhase(ordered, deps, First), InPhase(ordered, deps, Second), InPhase(ordered, deps, Third));
  }

  lemma PartsNoDuplicates(a: seq<string>, b: seq<string>, c: seq<string>)
    requires NoDuplicates(a + b + c)
    ensures NoDuplicates(a) && NoDuplicates(b) && NoDuplicates(c)
  {
    var all := a + b + c;
    assert forall i | 0 <= i < |a| :: all[i] == a[i];
    assert forall i | 0 <= i < |b| :: all[|a| + i] == b[i];
    assert forall i | 0 <= i < |c| :: all[|a| + |b| + i] == c[i];
  }

  /**
   * A run releases exactly the configured projects that no failed dependency blocks, and reports
   * exactly the configured and the blocked ones; an entry is a skip when its project was blocked.
   */
  lemma RunOutcome(s: Setup, ordered: seq<string>, p: string)
    requires NoDuplicates(ordered) && forall q | q in ordered :: q in s.deps
    ensures var made, blocked := MakeRun(s, ordered), p in ordered && Blocked(s, ordered, p);
      && (p in made.released <==> p in ordered && Configured(s, p) && !blocked)
      && (HasEntry(made.entries, p) <==> p in ordered && (Configured(s, p) || blocked))
      && (forall e | e in made.entries && e.project == p ::
           e.skipped == blocked && (e.skipped <==> e.status == Skipped))
      && (forall i | i in made.items && i.project == p :: p in made.released)
  {
    var a, b, c := InPhase(ordered, s.deps, First), InPhase(ordered, s.deps, Second), InPhase(ordered, s.deps, Third);
    InPhaseMembers(ordered, s.deps, First, p);
    InPhaseMembers(ordered, s.deps, Second, p);
    InPhaseMembers(ordered, s.deps, Third, p);
    var failed := MakeAll(Making(s, First, {}), a).failed;
    BlockedIff(s, ordered, p);
    MadeInPhase(s, First, a, {}, p);
    MadeInPhase(s, Second, b, failed, p);
    MadeInPhase(s, Third, c, {}, p);
    OutcomeOfParts(
      MakeAll(Making(s, First, {}), a), MakeAll(Making(s, Second, failed), b), MakeAll(Making(s, Third, {}), c), p);
  }

  lemma OutcomeOfParts(a: Made, b: Made, c: Made, p: string)
    ensures var made := Plus(Plus(a, b), c);
      && (p in made.released <==> p in a.released || p in b.released || p in c.released)
      && (forall e :: e in made.entries <==> e in a.entries || e in b.entries || e in c.entries)
      && (forall i :: i in made.items <==> i in a.items || i in b.items || i in c.items)
  {
  }

  lemma BlockedIff(s: Setup, ordered: seq<string>, p: string)
    ensures var failed := MakeAll(Making(s, First, {}), InPhase(ordered, s.deps, First)).failed;
      Blocked(s, ordered, p) <==> HasPhase(s.deps, p, Second) && FirstFailed(DependsOn(s, p), failed).Some?
  {
    var a := InPhase(ordered, s.deps, First);
    var failed := MakeAll(Making(s, First, {}), a).failed;
    FirstFailedIff(DependsOn(s, p), failed);
    forall d ensures d in failed <==> d in a && FailsFirst(s, d) {
      FailedInFirst(s, a, d);
    }
  }

  /**
   * A second-phase project is only released when none of its dependencies failed, and after all the configured ones.
   */
  lemma NeverReleasedAfterFailure(s: Setup, ordered: seq<string>, edges: set<(string, string)>, p: string, d: string)
    requires NoDuplicates(ordered) && Elements(ordered) == s.deps.Keys && forall q | q in ordered :: q in s.deps
    requires Describes(s.deps, edges) && forall a, b | (a, b) in edges :: b in s.deps
    ensures p in MakeRun(s, ordered).released && HasPhase(s.deps, p, Second) && d in s.deps[p].dependsOn ==>
      && !FailsFirst(s, d)
      && (Configured(s, d) ==> d in MakeAll(Making(s, First, {}), InPhase(ordered, s.deps, First)).released)
  {
    RunOutcome(s, ordered, p);
    MadeInPhase(s, First, InPhase(ordered, s.deps, First), {}, d);
    if p in s.deps && d in s.deps[p].dependsOn {
      DependenciesAreFirst(s.deps, edges, ordered, p, d);
    }
  }

  /** A first-phase project is released whatever became of its own dependencies. */
  lemma FirstPhaseIsNeverSkipped(s: Setup, ordered: seq<string>, p: string)
    requires NoDuplicates(ordered) && forall q | q in ordered :: q in s.deps
    requires p in ordered && HasPhase(s.deps, p, First) && Configured(s, p)
    ensures p in MakeRun(s, ordered).released
  {
    RunOutcome(s, ordered, p);
  }

  // ---- When nothing is released after a failed dependency ----

  /** No project that others wait for waits for anything itself. */
  predicate Shallow(deps: Infos) {
    forall p | p in deps && deps[p].needsWait :: deps[p].dependsOn == []
  }

  ghost predicate NothingAfterFailure(s: Setup, ordered: seq<string>) {
    forall p, d | p in MakeRun(s, ordered).released && p in s.deps && d in s.deps[p].dependsOn :: !FailsFirst(s, d)
  }

  lemma ShallowIsSafe(s: Setup, ordered: seq<string>, edges: set<(string, string)>)
    requires NoDuplicates(ordered) && Elements(ordered) == s.deps.Keys && forall q | q in ordered :: q in s.deps
    requires Describes(s.deps, edges) && forall a, b | (a, b) in edges :: b in s.deps
    requires Shallow(s.deps)
    ensures NothingAfterFailure(s, ordered)
  {
    forall p, d | p in MakeRun(s, ordered).released && p in s.deps && d in s.deps[p].dependsOn
      ensures !FailsFirst(s, d)
    {
      assert HasPhase(s.deps, p, Second);
      NeverReleasedAfterFailure(s, ordered, edges, p, d);
    }
  }

  const UNWATCHED := WatchResult("", "", 0, "", None)

  const REFUSING := GitHub((project, bump) => Err("refused"), project => Err("refused"),
                           (project, runID) => UNWATCHED, (project, runID) => UNWATCHED)

  /** With a GitHub that refuses every release, a waited-for project is asked for although its dependency failed. */
  lemma DeepRunFails(deps: Infos, ordered: seq<string>, p: string, d: string) returns (s: Setup)
    requires NoDuplicates(ordered) && Elements(ordered) == deps.Keys && forall q | q in ordered :: q in deps
    requires p in deps && deps[p].needsWait && d in deps[p].dependsOn
    ensures s.deps == deps && p in MakeRun(s, ordered).released && FailsFirst(s, d)
  {
    s := Setup(REFUSING, [Config(p, false, "", ""), Config(d, false, "", "")], deps, false);
    assert p in Elements(ordered);
    FirstPhaseIsNeverSkipped(s, ordered, p);
  }

  /** Whatever GitHub answers, nothing is released after a failed dependency: exactly for shallow dependencies. */
  lemma NothingAfterFailureIffShallow(deps: Infos, ordered: seq<string>, edges: set<(string, string)>)
    requires NoDuplicates(ordered) && Elements(ordered) == deps.Keys && forall q | q in ordered :: q in deps
    requires Describes(deps, edges) && forall a, b | (a, b) in edges :: b in deps
    ensures (forall s: Setup | s.deps == deps :: NothingAfterFailure(s, ordered)) <==> Shallow(deps)
  {
    if Shallow(deps) {
      forall s: Setup | s.deps == deps ensures NothingAfterFailure(s, ordered) {
        ShallowIsSafe(s, ordered, edges);
      }
    } else {
      var p :| p in deps && deps[p].needsWait && deps[p].dependsOn != [];
      var s := DeepRunFails(deps, ordered, p, deps[p].dependsOn[0]);
      assert !NothingAfterFailure(s, ordered);
    }
  }

  /** On a table: the dependencies are shallow exactly when no selected project is the middle of a chain of two. */
  lemma ShallowIff(deps: Infos, edges: set<(string, string)>)
    requires Describes(deps, edges) && forall a, b | (a, b) in edges :: a in deps
    ensures Shallow(deps) <==> forall p, d, q | (p, d) in edges :: (q, p) !in edges
  {
    if Shallow(deps) {
      forall p, d, q | (p, d) in edges ensures (q, p) !in edges {
        assert d in deps[p].dependsOn;
      }
    } else {
      var p :| p in deps && deps[p].needsWait && deps[p].dependsOn != [];
      assert deps[p].dependsOn[0] in deps[p].dependsOn;
    }
  }

  /** In the shipped table no project that others wait for depends on anything, whatever is selected. */
  lemma ShippedIsShallow(deps: Infos, selected: seq<string>)
    requires Describes(deps, SelectedEdges(PROJECT_DEPENDENCIES, selected, |selected|))
    requires deps.Keys == Elements(selected)
    ensures Shallow(deps)
  {
    var edges := SelectedEdges(PROJECT_DEPENDENCIES, selected, |selected|);
    forall p, d, q | (p, d) in edges ensures (q, p) !in edges {
      assert p in PROJECT_DEPENDENCIES;
    }
    ShallowIff(deps, edges);
  }

  /** So with the shipped table nothing is ever released after a dependency failed. */
  lemma ShippedRunsAreSafe(s: Setup, ordered: seq<string>, selected: seq<string>)
    requires NoDuplicates(ordered) && Elements(ordered) == s.deps.Keys == Elements(selected)
    requires forall q | q in ordered :: q in s.deps
    requires Describes(s.deps, SelectedEdges(PROJECT_DEPENDENCIES, selected, |selected|))
    ensures NothingAfterFailure(s, ordered)
  {
    ShippedIsShallow(s.deps, selected);
    NothingAfterFailureIffShallow(s.deps, ordered, SelectedEdges(PROJECT_DEPENDENCIES, selected, |selected|));
  }

  /** No project is reported twice. */
  lemma RunReportsOnce(s: Setup, ordered: seq<string>)
    requires NoDuplicates(ordered) && forall q | q in ordered :: q in s.deps
    ensures DistinctProjects(MakeRun(s, ordered).entries)
  {
    var a, b, c := InPhase(ordered, s.deps, First), InPhase(ordered, s.deps, Second), InPhase(ordered, s.deps, Third);
    PhaseLists(ordered, s.deps);
    forall p
      ensures p in a ==> p !in b && p !in c
      ensures p in b ==> p !in c
    {
      InPhaseMembers(ordered, s.deps, First, p);
      InPhaseMembers(ordered, s.deps, Second, p);
      InPhaseMembers(ordered, s.deps, Third, p);
    }
    var first := MakeAll(Making(s, First, {}), a);
    MakingKeepsApart(s, First, {});
    MakingKeepsApart(s, Second, first.failed);
    MakingKeepsApart(s, Third, {});
    MadeDistinct(Making(s, First, {}), a);
    MadeDistinct(Making(s, Second, first.failed), b);
    MadeDistinct(Making(s, Third, {}), c);
    var second, third := MakeAll(Making(s, Second, first.failed), b), MakeAll(Making(s, Third, {}), c);
    DistinctConcat(first.entries, second.entries, a, b);
    forall e | e in first.entries + second.entries ensures e.project in a + b {
    }
    DistinctConcat(first.entries + second.entries, third.entries, a + b, c);
  }

  lemma DistinctConcat(x: seq<ReportEntry>, y: seq<ReportEntry>, xs: seq<string>, ys: seq<string>)
    requires DistinctProjects(x) && DistinctProjects(y)
    requires forall e | e in x :: e.project in xs
    requires forall e | e in y :: e.project in ys && e.project !in xs
    ensures DistinctProjects(x + y)
  {
    var all := x + y;
    forall i, j | 0 <= i < j < |all| ensures all[i].project != all[j].project {
      if i < |x| <= j {
        assert x[i] in x && y[j - |x|] in y;
      }
    }
  }

  method ExecutePhases(s: Setup, svc: Service, report: ReleaseReport, ordered: seq<string>)
    returns (watchItems: seq<WatchItem>)
    requires svc.gh == s.gh && NoDuplicates(ordered) && forall p | p in ordered :: p in s.deps
    requires report.entries == []
    modifies svc, report
    ensures var made := MakeRun(s, ordered);
      && svc.released == old(svc.released) + made.released
      && report.entries == made.entries && watchItems == made.items
  {
    var phase1, phase2, phase3 := SplitByDependencyPhase(ordered, s.deps);
    forall p | p in phase1 + phase2 ensures p in s.deps {
      InPhaseMembers(ordered, s.deps, First, p);
      InPhaseMembers(ordered, s.deps, Second, p);
    }
    PhaseLists(ordered, s.deps);
    var failedDeps := ExecutePhase1(s, svc, report, phase1);
    ghost var one := Recorded(svc, report, [], failedDeps);
    watchItems := ExecutePhase2(s, svc, report, phase2, failedDeps, []);
    ghost var two := Recorded(svc, report, watchItems, {});
    watchItems := ExecutePhase3(s, svc, report, phase3, watchItems);
    RunAddsUp(old(svc.released), one, two, Recorded(svc, report, watchItems, {}),
      MakeAll(Making(s, First, {}), phase1), MakeAll(Making(s, Second, failedDeps), phase2),
          MakeAll(Making(s, Third, {}), phase3));
  }

  lemma RunAddsUp(released: seq<string>, one: Made, two: Made, three: Made, a: Made, b: Made, c: Made)
    requires one == Plus(Made(released, [], [], {}), a) && one.items == []
    requires two == Plus(one.(failed := {}), b) && three == Plus(two, c)
    ensures var made := Plus(Plus(a, b), c);
      three.released == released + made.released && three.entries == made.entries && three.items == made.items
    ensures one.failed == a.failed
  {
  }

  method RunMultiRelease(s: Setup, svc: Service, ordered: seq<string>) returns (report: ReleaseReport, failures: nat)
    requires svc.gh == s.gh && NoDuplicates(ordered) && forall p | p in ordered :: p in s.deps
    modifies svc
    ensures fresh(report)
    ensures svc.released == old(svc.released) + MakeRun(s, ordered).released
    ensures Updated(MakeRun(s, ordered).entries, report.entries, LastResults(s, ordered))
    ensures failures == CountWhere(report.entries, IsFailed)
    ensures forall e | e in report.entries :: Says(s, Blocked(s, ordered, e.project), e)
    ensures forall e | e in report.entries ::
      EndsFailed(s, ordered, e.project) <==> e.status == Failed || e.status == TimedOut
    ensures failures == |set p | p in ordered && EndsFailed(s, ordered, p)|
  {
    report := new ReleaseReport();
    var watchItems := ExecutePhases(s, svc, report, ordered);
    if s.watch && watchItems != [] {
      var results := svc.WatchMultiple(watchItems);
      report.UpdateFromMultiWatch(results);
    }
    failures := report.Count(IsFailed);
    FinalFailures(s, ordered, report.entries);
    forall e | e in report.entries
      ensures Says(s, Blocked(s, ordered, e.project), e)
      ensures EndsFailed(s, ordered, e.project) <==> e.status == Failed || e.status == TimedOut
    {
      FinalEntryFailed(s, ordered, report.entries, e);
    }
  }

  /** The results of the builds that a watching run still follows at its end. */
  function LastResults(s: Setup, ordered: seq<string>): map<string, WatchResult> {
    if s.watch then MultiWatch(s.gh, MakeRun(s, ordered).items) else map[]
  }

  lemma UpdatedProjects(before: seq<ReportEntry>, after: seq<ReportEntry>, results: map<string, WatchResult>)
    requires Updated(before, after, results)
    ensures |before| == |after| && forall i | 0 <= i < |after| :: after[i].project == before[i].project
  {
  }

  /** After any run each project has at most one entry, and has one exactly when it is configured or blocked. */
  lemma FinalReports(s: Setup, ordered: seq<string>, entries: seq<ReportEntry>, p: string)
    requires NoDuplicates(ordered) && forall q | q in ordered :: q in s.deps
    requires Updated(MakeRun(s, ordered).entries, entries, LastResults(s, ordered))
    ensures DistinctProjects(entries)
    ensures HasEntry(entries, p) <==> p in ordered && (Configured(s, p) || Blocked(s, ordered, p))
  {
    var first := MakeRun(s, ordered).entries;
    RunReportsOnce(s, ordered);
    RunOutcome(s, ordered, p);
    UpdatedProjects(first, entries, LastResults(s, ordered));
    SameProjects(first, entries, p);
  }

  /** After any run the four counts add up to the number of entries. */
  lemma FinalCounts(s: Setup, ordered: seq<string>, entries: seq<ReportEntry>)
    requires NoDuplicates(ordered) && forall p | p in ordered :: p in s.deps
    requires Updated(MakeRun(s, ordered).entries, entries, LastResults(s, ordered))
    ensures CountWhere(entries, IsSucceeded) + CountWhere(entries, IsFailed)
            + CountWhere(entries, IsSkipped) + CountWhere(entries, IsReleased) == |entries|
  {
    var first, results := MakeRun(s, ordered).entries, LastResults(s, ordered);
    forall e | e in first ensures IsTidy(e, results) {
      EntryTidy(s, ordered, e);
    }
    UpdatedIsTidy(first, entries, results);
    TidyCounts(entries);
  }

  /** The entry is a skip exactly when it says so, and no skipped project is watched. */
  predicate IsTidy(e: ReportEntry, results: map<string, WatchResult>) {
    (e.skipped <==> e.status == Skipped) && (e.project in results ==> !e.skipped)
  }

  lemma UpdatedIsTidy(first: seq<ReportEntry>, entries: seq<ReportEntry>, results: map<string, WatchResult>)
    requires Updated(first, entries, results) && forall e | e in first :: IsTidy(e, results)
    ensures forall e | e in entries :: e.skipped <==> e.status == Skipped
  {
    forall i | 0 <= i < |entries| ensures entries[i].skipped <==> entries[i].status == Skipped {
      assert first[i] in first && IsTidy(first[i], results);
    }
  }

  lemma TidyCounts(entries: seq<ReportEntry>)
    requires forall e | e in entries :: e.skipped <==> e.status == Skipped
    ensures CountWhere(entries, IsSucceeded) + CountWhere(entries, IsFailed)
            + CountWhere(entries, IsSkipped) + CountWhere(entries, IsReleased) == |entries|
  {
    CountsSum(entries);
    CountZero(entries, IsOvercounted);
  }

  lemma EntryTidy(s: Setup, ordered: seq<string>, e: ReportEntry)
    requires NoDuplicates(ordered) && forall p | p in ordered :: p in s.deps
    ensures e in MakeRun(s, ordered).entries ==> IsTidy(e, LastResults(s, ordered))
  {
    RunOutcome(s, ordered, e.project);
    assert e.project in ItemProjects(MakeRun(s, ordered).items) ==> e.project in MakeRun(s, ordered).released;
  }

  // ---- What a run finally says ----

  /** The build of an accepted release is followed at once in the first phase, and at the end otherwise. */
  function Followed(s: Setup, p: string, runID: string): WatchResult {
    if HasPhase(s.deps, p, First) then s.gh.watch(p, runID) else s.gh.watchLast(p, runID)
  }

  /** What an entry must say of its project, by what GitHub answered. */
  ghost predicate Says(s: Setup, blocked: bool, e: ReportEntry) {
    var config := FindConfig(s.configs, e.project);
    if blocked then e.status == Skipped && e.skipped
    else if config.None? then false
    else
      match Asked(s.gh, config.value)
      case Err(error) =>
        && !e.skipped && e.dependsOn == DependsOn(s, e.project)
        && e.status == Failed && e.error == error && e.version == "-" && e.url == ""
      case Ok(a) =>
        && !e.skipped && e.dependsOn == DependsOn(s, e.project)
        && e.version == (if a.version == "" then "-" else a.version) && e.url == a.url
        && if a.runID == "" || !s.watch then e.status == Released && e.error == ""
          else EndsAs(e, Followed(s, e.project, a.runID))
  }

  /** A followed build succeeded, timed out, or else failed. */
  predicate EndsAs(e: ReportEntry, w: WatchResult) {
    && e.duration == w.duration && e.headSha == w.headSha
    && (w.conclusion == "success" ==> e.status == Succeeded && e.error == "")
    && (w.conclusion != "success" && w.status == "timed_out" ==> e.status == TimedOut && e.error == "build timed out")
    && (w.conclusion != "success" && w.status != "timed_out" ==>
          e.status == Failed && e.error == if w.error.Some? then w.error.value else "build " + w.conclusion)
  }

  lemma WatchedEnds(e: ReportEntry, w: WatchResult)
    requires e.error == ""
    ensures EndsAs(Watched(e, w), w)
    ensures var after := Watched(e, w);
      && after.project == e.project && after.version == e.version && after.url == e.url
      && after.dependsOn == e.dependsOn && after.skipped == e.skipped
  {
  }

  lemma FirstSays(s: Setup, p: string)
    requires HasPhase(s.deps, p, First) && MakeFirst(s, p).entries != []
    ensures Says(s, false, MakeFirst(s, p).entries[0]) && MakeFirst(s, p).items == []
  {
    var config := FindConfig(s.configs, p);
    if config.Some? && Asked(s.gh, config.value).Ok? {
      var a := Asked(s.gh, config.value).value;
      var entry := ReleaseEntry(ReleaseResult(p, a.version, a.url, a.runID, true, None), DependsOn(s, p));
      WatchedEnds(entry, s.gh.watch(p, a.runID));
    }
  }

  /** An entry as a phase leaves it, and then as the builds followed at the end leave it. */
  function Finally(s: Setup, before: ReportEntry, items: seq<WatchItem>): ReportEntry {
    if s.watch && items != [] then Watched(before, s.gh.watchLast(before.project, items[0].runID)) else before
  }

  lemma LaterSays(s: Setup, p: string, dependsOn: seq<string>)
    requires !HasPhase(s.deps, p, First) && MakeLater(s, p, dependsOn).entries != [] && dependsOn == DependsOn(s, p)
    ensures var made := MakeLater(s, p, dependsOn); Says(s, false, Finally(s, made.entries[0], made.items))
  {
    var config := FindConfig(s.configs, p);
    if config.Some? && Asked(s.gh, config.value).Ok? {
      var a := Asked(s.gh, config.value).value;
      var entry := ReleaseEntry(ReleaseResult(p, a.version, a.url, a.runID, true, None), dependsOn);
      WatchedEnds(entry, s.gh.watchLast(p, a.runID));
    }
  }

  /** What the phases make of a project, and how its entry ends if its build is still followed. */
  lemma OneSays(s: Setup, phase: Phase, p: string, failed: set<string>)
    requires HasPhase(s.deps, p, phase) && MakeOne(s, phase, p, failed).entries != []
    ensures var one := MakeOne(s, phase, p, failed);
      var blocked := phase == Second && FirstFailed(DependsOn(s, p), failed).Some?;
      Says(s, blocked, Finally(s, one.entries[0], one.items))
  {
    if phase == First {
      FirstSays(s, p);
    } else if phase == Third {
      LaterSays(s, p, []);
    } else if FirstFailed(DependsOn(s, p), failed).None? {
      LaterSays(s, p, DependsOn(s, p));
    }
  }

  lemma OneOwns(s: Setup, phase: Phase, p: string, failed: set<string>)
    ensures Owns(p, MakeOne(s, phase, p, failed)) && |MakeOne(s, phase, p, failed).items| <= 1
  {
    MakingKeepsApart(s, phase, failed);
    assert Owns(p, Making(s, phase, failed)(p));
  }

  /** What a run makes of a project is what its phase makes of it. */
  lemma RunAt(s: Setup, ordered: seq<string>, phase: Phase, p: string)
    requires p in ordered && HasPhase(s.deps, p, phase)
    ensures var failed := MakeAll(Making(s, First, {}), InPhase(ordered, s.deps, First)).failed;
      var run, one := MakeRun(s, ordered), MakeOne(s, phase, p, failed);
      && (forall e: ReportEntry | e.project == p :: e in run.entries <==> e in one.entries)
      && (forall i: WatchItem | i.project == p :: i in run.items <==> i in one.items)
  {
    var a, b, c := InPhase(ordered, s.deps, First), InPhase(ordered, s.deps, Second), InPhase(ordered, s.deps, Third);
    InPhaseMembers(ordered, s.deps, First, p);
    InPhaseMembers(ordered, s.deps, Second, p);
    InPhaseMembers(ordered, s.deps, Third, p);
    var failed := MakeAll(Making(s, First, {}), a).failed;
    MakingKeepsApart(s, First, {});
    MakingKeepsApart(s, Second, failed);
    MakingKeepsApart(s, Third, {});
    MadeOfOne(Making(s, First, {}), a, p);
    MadeOfOne(Making(s, Second, failed), b, p);
    MadeOfOne(Making(s, Third, {}), c, p);
    OutcomeOfParts(
      MakeAll(Making(s, First, {}), a), MakeAll(Making(s, Second, failed), b), MakeAll(Making(s, Third, {}), c), p);
    MakeOneIgnores(s, phase, p, failed);
  }

  lemma MakeOneIgnores(s: Setup, phase: Phase, p: string, failed: set<string>)
    ensures phase != Second ==> MakeOne(s, phase, p, failed) == MakeOne(s, phase, p, {})
  {
  }

  /** The followed build of a project, if the run left one, is the one its phase left. */
  lemma LastResultAt(s: Setup, items: seq<WatchItem>, one: seq<WatchItem>, p: string)
    requires |one| <= 1 && forall i | i in one :: i.project == p
    requires forall i: WatchItem | i.project == p :: i in items <==> i in one
    ensures var results := MultiWatch(s.gh, items);
      && (p in results <==> one != [])
      && (one != [] ==> results[p] == s.gh.watchLast(p, one[0].runID))
  {
    if one != [] {
      assert one[0] in items && one[0].project in ItemProjects(items);
      MultiWatchOf(s.gh, items, p, one[0].runID);
    }
  }

  /** Each entry of the run is the one that its project's phase made, and then what became of its build. */
  lemma UpdatedOne(s: Setup, run: Made, one: Made, entries: seq<ReportEntry>, i: nat, p: string)
    requires DistinctProjects(run.entries) && i < |run.entries| && run.entries[i].project == p
    requires Updated(run.entries, entries, if s.watch then MultiWatch(s.gh, run.items) else map[])
    requires Owns(p, one) && |one.items| <= 1
    requires forall e: ReportEntry | e.project == p :: e in run.entries <==> e in one.entries
    requires forall item: WatchItem | item.project == p :: item in run.items <==> item in one.items
    ensures one.entries != [] && entries[i] == Finally(s, one.entries[0], one.items)
  {
    LastResultAt(s, run.items, one.items, p);
    assert IsFirst(run.entries, i);
    assert run.entries[i] in run.entries;
    assert run.entries[i] == one.entries[0];
  }

  /** Whatever was made of the projects, each entry finally says what GitHub's answers make of its project. */
  lemma FinalEntry(s: Setup, ordered: seq<string>, entries: seq<ReportEntry>, i: nat)
    requires NoDuplicates(ordered) && forall q | q in ordered :: q in s.deps
    requires Updated(MakeRun(s, ordered).entries, entries, LastResults(s, ordered)) && i < |entries|
    ensures entries[i].project in ordered && Says(s, Blocked(s, ordered, entries[i].project), entries[i])
  {
    var run := MakeRun(s, ordered);
    var p := run.entries[i].project;
    assert run.entries[i] in run.entries && HasEntry(run.entries, p);
    RunOutcome(s, ordered, p);
    RunReportsOnce(s, ordered);
    var phase := PhaseOf(s.deps[p]);
    var failed := MakeAll(Making(s, First, {}), InPhase(ordered, s.deps, First)).failed;
    RunAt(s, ordered, phase, p);
    OneOwns(s, phase, p, failed);
    UpdatedOne(s, run, MakeOne(s, phase, p, failed), entries, i, p);
    UpdatedProjects(run.entries, entries, LastResults(s, ordered));
    BlockedIff(s, ordered, p);
    OneSays(s, phase, p, failed);
  }

  /** The release was refused, or its build was followed and did not succeed. */
  ghost predicate EndsFailed(s: Setup, ordered: seq<string>, p: string) {
    var config := FindConfig(s.configs, p);
    && p in ordered && config.Some? && !Blocked(s, ordered, p)
    && match Asked(s.gh, config.value)
       case Err(_) => true
       case Ok(a) => a.runID != "" && s.watch && Followed(s, p, a.runID).conclusion != "success"
  }

  lemma SaysFailed(s: Setup, ordered: seq<string>, e: ReportEntry)
    requires e.project in ordered && Says(s, Blocked(s, ordered, e.project), e)
    ensures EndsFailed(s, ordered, e.project) <==> e.status == Failed || e.status == TimedOut
  {
  }

  ghost function ProjectsWhere(entries: seq<ReportEntry>, p: ReportEntry -> bool): set<string> {
    set e | e in entries && p(e) :: e.project
  }

  lemma ProjectsSnoc(before: seq<ReportEntry>, e: ReportEntry, p: ReportEntry -> bool)
    ensures ProjectsWhere(before + [e], p) == ProjectsWhere(before, p) + if p(e) then {e.project} else {}
  {
  }

  lemma {:induction false} CountDistinct(entries: seq<ReportEntry>, p: ReportEntry -> bool)
    requires DistinctProjects(entries)
    ensures CountWhere(entries, p) == |ProjectsWhere(entries, p)|
  {
    if entries == [] {
    } else {
      var n := |entries| - 1;
      CountDistinct(entries[..n], p);
      assert entries == entries[..n] + [entries[n]];
      ProjectsSnoc(entries[..n], entries[n], p);
      assert entries[n].project !in ProjectsWhere(entries[..n], p);
    }
  }

  lemma FinalEntryFailed(s: Setup, ordered: seq<string>, entries: seq<ReportEntry>, e: ReportEntry)
    requires NoDuplicates(ordered) && forall q | q in ordered :: q in s.deps
    requires Updated(MakeRun(s, ordered).entries, entries, LastResults(s, ordered)) && e in entries
    ensures e.project in ordered && Says(s, Blocked(s, ordered, e.project), e)
    ensures EndsFailed(s, ordered, e.project) <==> e.status == Failed || e.status == TimedOut
  {
    var i :| 0 <= i < |entries| && entries[i] == e;
    FinalEntry(s, ordered, entries, i);
    SaysFailed(s, ordered, e);
  }

  lemma CountOfProjects(entries: seq<ReportEntry>, p: ReportEntry -> bool, projects: set<string>)
    requires DistinctProjects(entries)
    requires forall e | e in entries :: p(e) <==> e.project in projects
    requires forall q | q in projects :: HasEntry(entries, q)
    ensures CountWhere(entries, p) == |projects|
  {
    CountDistinct(entries, p);
    assert ProjectsWhere(entries, p) == projects;
  }

  /** The failures counted after a run are the projects that ended failed. */
  lemma FinalFailures(s: Setup, ordered: seq<string>, entries: seq<ReportEntry>)
    requires NoDuplicates(ordered) && forall q | q in ordered :: q in s.deps
    requires Updated(MakeRun(s, ordered).entries, entries, LastResults(s, ordered))
    ensures CountWhere(entries, IsFailed) == |set p | p in ordered && EndsFailed(s, ordered, p)|
  {
    var projects := set p | p in ordered && EndsFailed(s, ordered, p);
    forall e | e in entries ensures IsFailed(e) <==> e.project in projects {
      FinalEntryFailed(s, ordered, entries, e);
    }
    forall p | p in projects ensures HasEntry(entries, p) {
      FinalReports(s, ordered, entries, p);
    }
    FinalReports(s, ordered, entries, "");
    CountOfProjects(entries, IsFailed, projects);
  }

  lemma SameProjects(before: seq<ReportEntry>, after: seq<ReportEntry>, p: string)
    requires |before| == |after| && forall i | 0 <= i < |after| :: after[i].project == before[i].project
    ensures HasEntry(after, p) <==> HasEntry(before, p)
  {
    if e :| e in after && e.project == p {
      var i :| 0 <= i < |after| && after[i] == e;
      assert before[i] in before;
    }
    if e :| e in before && e.project == p {
      var i :| 0 <= i < |before| && before[i] == e;
      assert after[i] in after;
    }
  }
}
