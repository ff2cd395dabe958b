/**
 * Instances sharing one registry: claims hold the lock and read the registry file by file, while
 * finalize, stop, release and delete write without it (pkg/instance/allocator.go, registry.go,
 * pkg/orchestrator/orchestrator.go).
 *
 * A live process carries its own copy of the manifest, and every save writes that copy.
 * A commit sees each plan as NamedPorts happened to list it.
 * The four guards that keep port sets apart are explicit predicates on a step; for each of them
 * `Collisions` has a run that breaks the property once that guard alone is dropped.
 */
module Protocol {
  import opened Common
  import opened PortPlans
  import opened Ports
  import opened Registry
  import opened Allocator

  /** A claim between taking the registry lock and releasing it. */
  datatype Claim = Claim(pid: nat, request: Manifest, cfg: LabConfig, unread: set<string>, read: Files)

  datatype State = State(files: Files, procs: map<nat, Manifest>, claim: Option<Claim>, now: nat)

  /** What a commit sees: the host, the cancellation, and one listing of a plan for each time the code lists it. */
  datatype Sight = Sight(
    host: HostView, bound: nat -> set<int>, cancelled: nat -> bool,
    stored: string -> FileListing, slots: nat -> SlotListing)

  ghost predicate IsSight(c: Claim, sight: Sight) {
    AreFileListings(c.read, sight.stored) && forall slot: nat :: IsSlotListing(c.cfg, slot, sight.slots(slot))
  }

  datatype Event =
    | Lock(pid: nat, request: Manifest, cfg: LabConfig)
    | ReadFile(id: string)
    | Commit(sight: Sight)
    | Load(pid: nat, id: string)
    | Start(pid: nat, manifest: Manifest)
    | Finalize(pid: nat, pids: map<string, int>, urls: map<string, string>, repos: map<string, string>, error: string)
    | MarkStopped(pid: nat)
    | Release(pid: nat, error: string)
    | Delete(pid: nat)
    | Exit(pid: nat)
    | Tick(seconds: nat)

  // ---- Steps; an event that is not enabled changes nothing ----

  /** The manifest that a finalize writes; an empty snapshot leaves the known repositories. */
  function RunningCopy(
      m: Manifest, pids: map<string, int>, urls: map<string, string>, repos: map<string, string>,
      error: string): Manifest
  {
    m.(status := Running, pids := pids, urls := urls, repos := if repos == map[] then m.repos else repos,
        lastError := error)
  }

  /** Save the process's new copy; when refused, the process keeps `kept`. */
  function SaveCopy(s: State, pid: nat, m: Manifest, kept: Manifest): State {
    s.(files := Saved(s.files, m, s.now),
       procs := s.procs[pid := if SaveError(s.files, m).None? then Stamped(m, s.now) else kept])
  }

  /** The ports that the claim collects from the files it read. */
  ghost function UsedPorts(c: Claim, now: nat, sight: Sight): set<int> {
    ActivePortsBy(c.read, c.request.instanceID, now, sight.host, sight.stored)
  }

  ghost function FitOf(c: Claim, now: nat, sight: Sight): Fit {
    FirstFitBy(UsedPorts(c, now, sight), sight.bound, sight.cancelled, sight.slots, DEFAULT_MAX_SLOTS)
  }

  ghost function CommitClaim(s: State, c: Claim, sight: Sight): State {
    var fit := FitOf(c, s.now, sight);
    if !fit.Found? then s.(claim := None)
    else
      var m := Claimed(c.request, c.request.instanceID, PlanFor(c.cfg, fit.slot));
      if SaveError(s.files, m).Some? then s.(claim := None)
      else SaveCopy(s, c.pid, m, m).(claim := None)
  }

  ghost function Step(s: State, e: Event): State {
    match e
    case Lock(pid, request, cfg) =>
      if s.claim.Some? || request.instanceID == "" then s
      else s.(claim := Some(Claim(pid, request, cfg, s.files.Keys, map[])))
    case ReadFile(id) =>
      if s.claim.None? || id !in s.claim.value.unread then s
      else if LoadFrom(s.files, id).Err? then s.(claim := None)
      else
        var c := s.claim.value;
        s.(claim := Some(c.(unread := c.unread - {id}, read := c.read[id := s.files[id]])))
    case Commit(sight) =>
      if s.claim.None? || s.claim.value.unread != {} || !IsSight(s.claim.value, sight) then s
      else CommitClaim(s, s.claim.value, sight)
    case Load(pid, id) =>
      if LoadFrom(s.files, id).Err? then s else s.(procs := s.procs[pid := s.files[id].manifest])
    case Start(pid, m) => s.(procs := s.procs[pid := m])
    case Finalize(pid, pids, urls, repos, error) =>
      if pid !in s.procs then s
      else SaveCopy(s, pid, RunningCopy(s.procs[pid], pids, urls, repos, error), s.procs[pid])
    case MarkStopped(pid) =>
      if pid !in s.procs then s
      else
        var m := s.procs[pid].(status := Stopped, pids := map[]);
        SaveCopy(s, pid, m, m)
    case Release(pid, error) =>
      if pid !in s.procs then s
      else
        var m := s.procs[pid].(status := Stopped, lastError := error, pids := map[]);
        SaveCopy(s, pid, m, m)
    case Delete(pid) =>
      if pid !in s.procs then s
      else s.(files := s.files - {s.procs[pid].instanceID}, procs := s.procs - {pid})
    case Exit(pid) => s.(procs := s.procs - {pid})
    case Tick(seconds) => s.(now := s.now + seconds)
  }

  ghost function Run(s: State, events: seq<Event>): State
    decreases |events|
  {
    if events == [] then s else Run(Step(s, events[0]), events[1..])
  }

  // ---- Guards ----

  ghost predicate NoProcessFor(s: State, id: string) {
    && (forall p | p in s.procs :: s.procs[p].instanceID != id)
    && (s.claim.Some? ==> s.claim.value.request.instanceID != id)
  }

  ghost predicate FreshPID(s: State, pid: nat) {
    pid !in s.procs && (s.claim.Some? ==> s.claim.value.pid != pid)
  }

  /** A process starts for an instance only when none is alive for it. */
  ghost predicate OneProcessPerInstance(s: State, e: Event) {
    match e
    case Lock(pid, request, _) => FreshPID(s, pid) && NoProcessFor(s, request.instanceID)
    case Load(pid, id) =>
      FreshPID(s, pid) && (LoadFrom(s.files, id).Ok? ==> NoProcessFor(s, s.files[id].manifest.instanceID))
    case Start(pid, m) => FreshPID(s, pid) && NoProcessFor(s, m.instanceID) && m.status == Created
    case _ => true
  }

  predicate Occupies(m: Manifest) {
    m.status == Reserved || m.status == Running
  }

  /** Only a reserved or running manifest is finalized. */
  ghost predicate FinalizesClaimed(s: State, e: Event) {
    e.Finalize? && e.pid in s.procs ==> Occupies(s.procs[e.pid])
  }

  /** When a claim judges the manifests it read, no reservation among them has lapsed. */
  ghost predicate SeesNoLapsedReservation(s: State, e: Event) {
    e.Commit? && s.claim.Some? ==>
      forall id | id in s.claim.value.read && s.claim.value.read[id].Parsed?
                  && s.claim.value.read[id].manifest.status == Reserved ::
        ActiveBy(s.claim.value.read[id].manifest, s.now, e.sight.host, e.sight.stored(id).backing)
  }

  /** A lab that claims has network names that do not clash. */
  ghost predicate NamesToldApart(e: Event) {
    e.Lock? ==> NamesSafe(e.cfg)
  }

  /** Which of the guards a run keeps. */
  datatype Guards = Guards(oneProcess: bool, finalizesClaimed: bool, noLapse: bool, safeNames: bool)

  ghost predicate Guarded(g: Guards, s: State, e: Event) {
    && (g.oneProcess ==> OneProcessPerInstance(s, e))
    && (g.finalizesClaimed ==> FinalizesClaimed(s, e))
    && (g.noLapse ==> SeesNoLapsedReservation(s, e))
    && (g.safeNames ==> NamesToldApart(e))
  }

  ghost predicate GuardedRun(g: Guards, s: State, events: seq<Event>)
    decreases |events|
  {
    events == [] || (Guarded(g, s, events[0]) && GuardedRun(g, Step(s, events[0]), events[1..]))
  }

  const ALL := Guards(true, true, true, true)

  // ---- The property and the invariant that carries it ----

  predicate OccupiedFile(files: Files, id: string) {
    id in files && files[id].Parsed? && Occupies(files[id].manifest)
  }

  /** Reserved and running manifests have pairwise disjoint ports. */
  ghost predicate PortsDisjoint(files: Files) {
    forall a, b | OccupiedFile(files, a) && OccupiedFile(files, b) && a != b ::
      PortSet(files[a].manifest.ports) !! PortSet(files[b].manifest.ports)
  }

  /** The names of an occupied file's plan tell its ports apart. */
  ghost predicate NamesApart(files: Files) {
    forall id | OccupiedFile(files, id) :: LabelsDistinct(files[id].manifest.ports.networks.Keys)
  }

  ghost predicate FilesInv(files: Files) {
    NamedByID(files) && PortsDisjoint(files) && NamesApart(files)
  }

  /** A process whose copy occupies ports agrees with the file it would overwrite. */
  predicate CopyAgrees(files: Files, m: Manifest) {
    Occupies(m) ==> OccupiedFile(files, m.instanceID) && files[m.instanceID].manifest.ports == m.ports
  }

  predicate ProcsInv(files: Files, procs: map<nat, Manifest>) {
    && (forall p | p in procs :: CopyAgrees(files, procs[p]))
    && (forall p, q | p in procs && q in procs && p != q :: procs[p].instanceID != procs[q].instanceID)
  }

  /** The claim still has to read, or has already seen the ports of, every occupied file of another instance. */
  ghost predicate ClaimCovers(files: Files, c: Claim) {
    && NamedByID(c.read)
    && (forall id | OccupiedFile(files, id) && id != c.request.instanceID ::
          id in c.unread || (OccupiedFile(c.read, id) && c.read[id].manifest.ports == files[id].manifest.ports))
  }

  ghost predicate ClaimInv(files: Files, procs: map<nat, Manifest>, c: Claim) {
    && c.pid !in procs && (forall p | p in procs :: procs[p].instanceID != c.request.instanceID)
    && ClaimCovers(files, c) && NamesSafe(c.cfg)
  }

  ghost predicate Inv(s: State) {
    FilesInv(s.files) && ProcsInv(s.files, s.procs) && (s.claim.Some? ==> ClaimInv(s.files, s.procs, s.claim.value))
  }

  predicate Initial(s: State) {
    s.files == map[] && s.procs == map[] && s.claim == None
  }

  // ---- A commit ----

  /** The claim sees all ports of every occupied file of another instance. */
  lemma SeenPortsAreUsed(s: State, c: Claim, sight: Sight, id: string)
    requires Inv(s) && s.claim == Some(c) && c.unread == {} && IsSight(c, sight)
    requires SeesNoLapsedReservation(s, Commit(sight))
    requires OccupiedFile(s.files, id) && id != c.request.instanceID
    ensures PortSet(s.files[id].manifest.ports) <= UsedPorts(c, s.now, sight)
  {
    var m := c.read[id].manifest;
    assert OccupiedFile(c.read, id) && m.instanceID == id && m.ports == s.files[id].manifest.ports;
    assert ActiveBy(m, s.now, sight.host, sight.stored(id).backing);
    SafeListing(m.ports, sight.stored(id).active);
    assert ListedBy(m, c.request.instanceID, s.now, sight.host, sight.stored(id)) == PortSet(m.ports);
  }

  /** A new plan that avoids the ports the claim saw avoids every occupied file. */
  lemma FoundPlanIsDisjoint(s: State, c: Claim, sight: Sight, id: string)
    requires Inv(s) && s.claim == Some(c) && c.unread == {} && IsSight(c, sight)
    requires SeesNoLapsedReservation(s, Commit(sight))
    requires OccupiedFile(s.files, id) && id != c.request.instanceID
    ensures var fit := FitOf(c, s.now, sight);
      fit.Found? ==> PortSet(PlanFor(c.cfg, fit.slot)) !! PortSet(s.files[id].manifest.ports)
  {
    var used := UsedPorts(c, s.now, sight);
    SafeNamesFit(c.cfg, used, sight.bound, sight.cancelled, sight.slots, DEFAULT_MAX_SLOTS);
    if FitOf(c, s.now, sight).Found? {
      SeenPortsAreUsed(s, c, sight, id);
      FoundAvoidsUsed(c.cfg, used, sight.bound, sight.cancelled, DEFAULT_MAX_SLOTS,
          PortSet(s.files[id].manifest.ports));
    }
  }

  lemma CommitKeepsInv(s: State, sight: Sight)
    requires Inv(s) && Guarded(ALL, s, Commit(sight))
    ensures Inv(Step(s, Commit(sight)))
  {
    if s.claim.Some? && s.claim.value.unread == {} && IsSight(s.claim.value, sight) {
      var c := s.claim.value;
      var fit := FitOf(c, s.now, sight);
      if fit.Found? {
        forall id | OccupiedFile(s.files, id) && id != c.request.instanceID
          ensures PortSet(PlanFor(c.cfg, fit.slot)) !! PortSet(s.files[id].manifest.ports)
        {
          FoundPlanIsDisjoint(s, c, sight, id);
        }
        var m := Claimed(c.request, c.request.instanceID, PlanFor(c.cfg, fit.slot));
        SafePlan(c.cfg, fit.slot);
        if SaveError(s.files, m).None? { ClaimSaveKeepsInv(s, c, m); }
      }
    }
  }

  /** One more file, its ports apart from those of the other occupied ones. */
  lemma NewFileKeepsFiles(files: Files, m: Manifest)
    requires FilesInv(files)
    requires Occupies(m) ==> LabelsDistinct(m.ports.networks.Keys)
    requires Occupies(m) ==> forall id | OccupiedFile(files, id) && id != m.instanceID ::
      PortSet(m.ports) !! PortSet(files[id].manifest.ports)
    ensures FilesInv(files[m.instanceID := Parsed(m)])
  {
    var after := files[m.instanceID := Parsed(m)];
    forall id | OccupiedFile(after, id) && id != m.instanceID
      ensures OccupiedFile(files, id) && after[id] == files[id]
    {
    }
    forall a, b | OccupiedFile(after, a) && OccupiedFile(after, b) && a != b
      ensures PortSet(after[a].manifest.ports) !! PortSet(after[b].manifest.ports)
    {
      assert a != m.instanceID || b != m.instanceID;
    }
  }

  lemma NewFileKeepsProcs(files: Files, procs: map<nat, Manifest>, pid: nat, m: Manifest)
    requires ProcsInv(files, procs) && forall p | p in procs && p != pid :: procs[p].instanceID != m.instanceID
    ensures ProcsInv(files[m.instanceID := Parsed(m)], procs[pid := m])
  {
    var after, all := files[m.instanceID := Parsed(m)], procs[pid := m];
    forall p | p in all ensures CopyAgrees(after, all[p]) {
      if p != pid { assert CopyAgrees(files, procs[p]); }
    }
  }

  lemma ClaimSaveKeepsInv(s: State, c: Claim, m: Manifest)
    requires Inv(s) && s.claim == Some(c) && m.instanceID == c.request.instanceID && m.status == Reserved
    requires LabelsDistinct(m.ports.networks.Keys)
    requires forall id | OccupiedFile(s.files, id) && id != m.instanceID ::
               PortSet(m.ports) !! PortSet(s.files[id].manifest.ports)
    requires SaveError(s.files, m).None?
    ensures Inv(SaveCopy(s, c.pid, m, m).(claim := None))
  {
    NewFileKeepsFiles(s.files, Stamped(m, s.now));
    NewFileKeepsProcs(s.files, s.procs, c.pid, Stamped(m, s.now));
  }

  // ---- The other steps ----

  /** A save of another instance that adds no ports leaves a claim as good as it was. */
  lemma SaveKeepsClaim(files: Files, procs: map<nat, Manifest>, c: Claim, pid: nat, m: Manifest)
    requires ClaimInv(files, procs, c) && pid in procs && procs[pid].instanceID == m.instanceID
    requires Occupies(m) ==> OccupiedFile(files, m.instanceID) && files[m.instanceID].manifest.ports == m.ports
    ensures ClaimInv(files[m.instanceID := Parsed(m)], procs[pid := m], c)
  {
    var after := files[m.instanceID := Parsed(m)];
    forall id | OccupiedFile(after, id) && id != c.request.instanceID
      ensures id in c.unread || (OccupiedFile(c.read, id) && c.read[id].manifest.ports == after[id].manifest.ports)
    {
      assert OccupiedFile(files, id) && files[id].manifest.ports == after[id].manifest.ports;
    }
  }

  /** A live process's save keeps the invariant when an occupying copy was already occupying. */
  lemma SaveKeepsInv(s: State, pid: nat, m: Manifest, kept: Manifest)
    requires Inv(s) && pid in s.procs && m.instanceID == s.procs[pid].instanceID == kept.instanceID
    requires Occupies(m) ==> Occupies(s.procs[pid]) && m.ports == s.procs[pid].ports
    requires CopyAgrees(s.files, kept)
    ensures Inv(SaveCopy(s, pid, m, kept))
  {
    assert CopyAgrees(s.files, s.procs[pid]);
    if SaveError(s.files, m).None? {
      var saved := Stamped(m, s.now);
      NewFileKeepsFiles(s.files, saved);
      NewFileKeepsProcs(s.files, s.procs, pid, saved);
      if s.claim.Some? { SaveKeepsClaim(s.files, s.procs, s.claim.value, pid, saved); }
    } else {
      CopyKeepsProcs(s.files, s.procs, pid, kept);
    }
  }

  lemma CopyKeepsProcs(files: Files, procs: map<nat, Manifest>, pid: nat, m: Manifest)
    requires ProcsInv(files, procs) && CopyAgrees(files, m)
    requires forall p | p in procs && p != pid :: procs[p].instanceID != m.instanceID
    ensures ProcsInv(files, procs[pid := m])
  {
  }

  lemma LockKeepsInv(s: State, pid: nat, request: Manifest, cfg: LabConfig)
    requires Inv(s) && FreshPID(s, pid) && NoProcessFor(s, request.instanceID) && NamesSafe(cfg)
    ensures Inv(Step(s, Lock(pid, request, cfg)))
  {
    assert ClaimCovers(s.files, Claim(pid, request, cfg, s.files.Keys, map[]));
  }

  lemma ReadKeepsInv(s: State, id: string)
    requires Inv(s)
    ensures Inv(Step(s, ReadFile(id)))
  {
    if s.claim.Some? && id in s.claim.value.unread && LoadFrom(s.files, id).Ok? {
      var c := s.claim.value;
      assert ClaimCovers(s.files, c.(unread := c.unread - {id}, read := c.read[id := s.files[id]]));
    }
  }

  /** A process that starts for an instance without one. */
  lemma NewProcessKeepsInv(s: State, pid: nat, m: Manifest)
    requires Inv(s) && FreshPID(s, pid) && NoProcessFor(s, m.instanceID) && CopyAgrees(s.files, m)
    ensures Inv(s.(procs := s.procs[pid := m]))
  {
    CopyKeepsProcs(s.files, s.procs, pid, m);
  }

  lemma ExitKeepsInv(s: State, pid: nat)
    requires Inv(s)
    ensures Inv(s.(procs := s.procs - {pid}))
  {
    assert ProcsInv(s.files, s.procs - {pid});
  }

  lemma DeleteKeepsInv(s: State, pid: nat)
    requires Inv(s) && pid in s.procs
    ensures Inv(Step(s, Delete(pid)))
  {
    var id := s.procs[pid].instanceID;
    var files, procs := s.files - {id}, s.procs - {pid};
    forall k | OccupiedFile(files, k) ensures OccupiedFile(s.files, k) && files[k] == s.files[k] {
    }
    assert FilesInv(files);
    forall p | p in procs ensures CopyAgrees(files, procs[p]) {
      assert CopyAgrees(s.files, s.procs[p]);
    }
    if s.claim.Some? { assert ClaimCovers(files, s.claim.value); }
  }

  /** Every guarded step keeps the invariant. */
  lemma StepKeepsInv(s: State, e: Event)
    requires Inv(s) && Guarded(ALL, s, e)
    ensures Inv(Step(s, e))
  {
    match e
    case Lock(pid, request, cfg) => LockKeepsInv(s, pid, request, cfg);
    case ReadFile(id) => ReadKeepsInv(s, id);
    case Commit(sight) => CommitKeepsInv(s, sight);
    case Load(pid, id) =>
      if LoadFrom(s.files, id).Ok? { NewProcessKeepsInv(s, pid, s.files[id].manifest); }
    case Start(pid, m) => NewProcessKeepsInv(s, pid, m);
    case Finalize(pid, pids, urls, repos, error) =>
      if pid in s.procs { SaveKeepsInv(s, pid, RunningCopy(s.procs[pid], pids, urls, repos, error), s.procs[pid]); }
    case MarkStopped(pid) =>
      if pid in s.procs {
        var m := s.procs[pid].(status := Stopped, pids := map[]);
        SaveKeepsInv(s, pid, m, m);
      }
    case Release(pid, error) =>
      if pid in s.procs {
        var m := s.procs[pid].(status := Stopped, lastError := error, pids := map[]);
        SaveKeepsInv(s, pid, m, m);
      }
    case Delete(pid) =>
      if pid in s.procs { DeleteKeepsInv(s, pid); }
    case Exit(pid) => ExitKeepsInv(s, pid);
    case Tick(_) =>
  }

  lemma {:induction false} GuardedRunsKeepInv(s: State, events: seq<Event>)
    requires Inv(s) && GuardedRun(ALL, s, events)
    ensures Inv(Run(s, events))
    decreases |events|
  {
    if events == [] {
    } else {
      StepKeepsInv(s, events[0]);
      GuardedRunsKeepInv(Step(s, events[0]), events[1..]);
    }
  }

  /** In every guarded run from an empty registry, reserved and running manifests keep pairwise disjoint ports. */
  lemma GuardedRunsAreSafe(s: State, events: seq<Event>)
    requires Initial(s) && GuardedRun(ALL, s, events)
    ensures PortsDisjoint(Run(s, events).files)
  {
    GuardedRunsKeepInv(s, events);
  }
}
