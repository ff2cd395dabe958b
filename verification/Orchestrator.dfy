/** What booting and stopping a stack does to the instance manifest (pkg/orchestrator/orchestrator.go). */
module Orchestrator {
  import opened Common
  import opened Ports
  import opened Registry
  import Protocol

  datatype UpError = BootFailed(message: string) | NotFinalized(reason: RegistryError)

  function UpErrorText(e: UpError): string {
    match e
    case BootFailed(message) => message
    case NotFinalized(_) => "failed to write instance manifest"
  }

  /** What a finished boot leaves to record: processes, URLs, and a snapshot of the repositories with its error. */
  datatype Booted = Booted(
    pids: map<string, int>, urls: map<string, string>, repos: map<string, string>, snapshotError: string)

  class RuntimeOrchestrator {
    const registry: ManifestRegistry
    const copy: ManifestCell
    const ports: PortPlan
    const docker: DockerPlan
    var repos: map<string, string>

    constructor (registry: ManifestRegistry, copy: ManifestCell)
      ensures this.registry == registry && this.copy == copy
      ensures ports == copy.manifest.ports && docker == copy.manifest.docker && repos == map[]
    {
      this.registry, this.copy := registry, copy;
      this.ports, this.docker, this.repos := copy.manifest.ports, copy.manifest.docker, map[];
    }

    /** The manifest a finalize writes; an empty snapshot leaves the known repositories. */
    function FinalizedCopy(m: Manifest, boot: Booted): Manifest {
      m.(lastError := boot.snapshotError, repos := if boot.repos == map[] then m.repos else boot.repos,
         status := Running, ports := ports, docker := docker, pids := boot.pids, urls := boot.urls)
    }

    method FinalizeRuntimeManifest(boot: Booted, now: int) returns (err: Option<RegistryError>)
      modifies this, registry, copy
      ensures repos == if boot.repos == map[] then old(repos) else boot.repos
      ensures var m := FinalizedCopy(old(copy.manifest), boot);
        && err == SaveError(old(registry.files), m)
        && registry.files == Saved(old(registry.files), m, now)
        && copy.manifest == if err.None? then Stamped(m, now) else old(copy.manifest)
      ensures err.None? ==>
        && copy.manifest.status == Running && copy.manifest.ports == ports && copy.manifest.docker == docker
        && copy.manifest.pids == boot.pids && copy.manifest.urls == boot.urls
        && copy.manifest.lastError == boot.snapshotError
        && copy.manifest.repos == (if boot.repos == map[] then old(copy.manifest.repos) else boot.repos)
        && copy.manifest.instanceID == old(copy.manifest.instanceID)
        && copy.manifest.rootDir == old(copy.manifest.rootDir)
        && copy.manifest.configPath == old(copy.manifest.configPath)
        && copy.manifest.updatedAt == now
    {
      var updated := new ManifestCell(copy.manifest);
      if |boot.repos| > 0 {
        updated.manifest := updated.manifest.(repos := boot.repos);
        repos := boot.repos;
      }
      updated.manifest := updated.manifest.(lastError := boot.snapshotError, status := Running, ports := ports,
          docker := docker);
      updated.manifest := updated.manifest.(pids := boot.pids, urls := boot.urls);
      err := registry.Save(updated, now);
      if err.None? {
        copy.manifest := updated.manifest;
      }
    }

    method MarkRuntimeStopped(now: int) returns (err: Option<RegistryError>)
      modifies registry, copy
      ensures var m := old(copy.manifest).(status := Stopped, pids := map[]);
        && err == SaveError(old(registry.files), m)
        && registry.files == Saved(old(registry.files), m, now)
        && copy.manifest == if err.None? then Stamped(m, now) else m
    {
      copy.manifest := copy.manifest.(status := Stopped);
      copy.manifest := copy.manifest.(pids := map[]);
      err := registry.Save(copy, now);
    }

    method ReleaseRuntimeReservation(upError: string, now: int) returns (err: Option<RegistryError>)
      modifies registry, copy
      ensures var m := old(copy.manifest).(status := Stopped, lastError := upError, pids := map[]);
        && err == SaveError(old(registry.files), m)
        && registry.files == Saved(old(registry.files), m, now)
        && copy.manifest == if err.None? then Stamped(m, now) else m
    {
      copy.manifest := copy.manifest.(status := Stopped, lastError := upError);
      copy.manifest := copy.manifest.(pids := map[]);
      err := registry.Save(copy, now);
    }

    /**
     * `failure` is the error of the first boot step that fails, if any.  An Up that began on a reservation
     * never leaves it behind: it ends running, or stopped, or with a registry that refuses the instance's saves.
     */
    method Up(failure: Option<string>, boot: Booted, now: int) returns (err: Option<UpError>)
      modifies this, registry, copy
      ensures failure.Some? ==> err == Some(BootFailed(failure.value))
      ensures err.None? ==> copy.manifest.status == Running
      ensures err.None? ==> registry.files == Saved(old(registry.files), FinalizedCopy(old(copy.manifest), boot), now)
      ensures err.Some? && old(copy.manifest).status != Reserved ==>
        registry.files == old(registry.files) && copy.manifest == old(copy.manifest)
      ensures err.Some? && old(copy.manifest).status == Reserved ==>
        && copy.manifest.status == Stopped && copy.manifest.pids == map[]
        && copy.manifest.lastError == if failure.Some? then failure.value else "failed to write instance manifest"
      ensures old(copy.manifest).status == Reserved && SaveError(old(registry.files), old(copy.manifest)).None? ==>
        && copy.manifest.instanceID in registry.files
        && registry.files[copy.manifest.instanceID] == Parsed(copy.manifest)
        && copy.manifest.status == if err.None? then Running else Stopped
    {
      var releaseOnFailure := copy.manifest.status == Reserved;
      err := None;
      if failure.Some? {
        err := Some(BootFailed(failure.value));
      } else {
        var refused := FinalizeRuntimeManifest(boot, now);
        if refused.Some? { err := Some(NotFinalized(refused.value)); }
      }
      if err.Some? && releaseOnFailure {
        var _ := ReleaseRuntimeReservation(UpErrorText(err.value), now);
      }
    }
  }

  /** On the live process's copy, these writes are the finalize, stop and release steps of the protocol. */
  lemma WritesAreProtocolSteps(s: Protocol.State, pid: nat, o: RuntimeOrchestrator, boot: Booted, error: string)
    requires pid in s.procs && o.ports == s.procs[pid].ports && o.docker == s.procs[pid].docker
    ensures var m := s.procs[pid];
      && Protocol.Step(s, Protocol.Finalize(pid, boot.pids, boot.urls, boot.repos, boot.snapshotError)).files
         == Saved(s.files, o.FinalizedCopy(m, boot), s.now)
      && Protocol.Step(s, Protocol.MarkStopped(pid)).files
           == Saved(s.files, m.(status := Stopped, pids := map[]), s.now)
      && Protocol.Step(s, Protocol.Release(pid, error)).files
         == Saved(s.files, m.(status := Stopped, lastError := error, pids := map[]), s.now)
  {
    var m := s.procs[pid];
    assert o.FinalizedCopy(m, boot) == Protocol.RunningCopy(m, boot.pids, boot.urls, boot.repos, boot.snapshotError);
  }
}
