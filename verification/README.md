# xcli: verified models of its hard parts

xcli runs local ethPandaOps lab instances side by side, manages their models, releases the projects they are
built from and serves a dashboard.  These Dafny modules model the parts of it in which several pieces have to
agree, and prove what those pieces promise together.  `dafny verify dfyconfig.toml` checks everything.

| file | models | main results |
|---|---|---|
| `Ports.dfy`, `PortPlans.dfy` | port plans of an instance | a plan at slot s is the slot-0 plan shifted by 1000 s; what string-keyed port names lose, and when |
| `Registry.dfy`, `Allocator.dfy` | manifest files, first-fit allocation of slots | the least acceptable slot is found; running out needs many occupied ports |
| `DefaultSlots.dfy` | the default lab | which slots overlap, and which slot the k-th concurrent claim gets |
| `Protocol.dfy`, `Collisions.dfy`, `NameClash.dfy`, `Orchestrator.dfy` | instances sharing one registry | ports of reserved and running manifests stay disjoint in every guarded run; each guard is needed |
| `Dependencies.dfy`, `DependencyTable.dfy` | model dependencies and enabling | when resolution succeeds; what the flattened lists hold; when one pass closes the enabled set |
| `ReleaseOrder.dfy`, `ReleaseExecution.dfy` | multi-project releases | order and phases; exactly when nothing is released after a failed dependency; complete reports |
| `Overrides.dfy`, `OverrideMaps.dfy` | the model override file | three readers and the writer: where they agree |
| `StackLifecycle.dfy`, `SSEHub.dfy` | dashboard requests, workers and event clients | invariants of every interleaving, with tight bounds and witnesses |
| `ClaudeStream.dfy` | the streaming fold over provider messages | numbering, text and tool summaries of the chunks |
| `RedisTree.dfy`, `Resp.dfy` | browsing keys, bulk insert | every key is met once; the stream is uniquely decodable |
| `Reconcile.dfy` | instance ids, manifests against live resources | nothing is lost or reported twice |
| `Common.dfy`, `Graphs.dfy` | lists, sorting, strings; chains of edges | shared facts |

Where the code meets a promise only under a condition, the condition is stated, and a lemma shows what happens
without it:

- Port names are string keys, so a network called `api-x` beside `x` hides a port of the plan
  (`Ports.ClashLosesPort`); a plan of different ports is listed in full exactly when no two networks clash
  (`Ports.ListedInFullIffNoClash`).  The methods say what they do for every iteration order of the networks, and
  `Allocator.SafeNamesFit` and `Allocator.SafeNamesActive` that without a clash this is what the plans say.
- Port disjointness needs four guards: one live process per instance, finalizing only reserved or running
  manifests, no lapsed reservation among the manifests a claim judges, and network names that do not clash in the
  lab of a claim.  `Collisions` has a run for each guard that breaks the property when that guard alone is dropped.
- A registry file is kept from other configs (`Registry.OneSaveKeepsConfig`), but a save without a path is let
  through and gives the file up (`Registry.ConfigIsKeptIff`, `Registry.ConfigIsGivenUp`).
- A dependency that is declared under one name with two kinds hides one of them
  (`Dependencies.AmbiguousDependencyIsLost`).  The trees follow a model's declarations exactly when it names nothing
  with two kinds, and the lists of a root hold what is declared exactly when every hidden declaration is reached
  another way (`Dependencies.FollowsDeclaredIff`, `Dependencies.ListsDeclaredIff`).
- A first-phase project is released whatever became of its own dependencies
  (`ReleaseExecution.FirstPhaseIsNeverSkipped`).  So nothing is released after a failed dependency, whatever GitHub
  answers, exactly when no project that others wait for depends on anything itself
  (`ReleaseExecution.NothingAfterFailureIffShallow`), as in the shipped table.
- One enabling pass is enough for all entries exactly when the dependency table is transitively closed
  (`DependencyTable.OnePassIsEnoughIff`), and a loaded one is unless some model uses the name of another as an external
  (`DependencyTable.LoadedTableIsClosedIff`, with the witness `DependencyTable.SharedNameNeedsSecondCall`).
- An allowlisted model whose entry holds no leaf is disabled by pruning (`Overrides.VerdictPreservedIff`), and
  saving forgets an allowlisted model without a configuration block (`Overrides.SaveThenLoad`).
- A cancel can be accepted and leave the boot it is for uncancelled (`StackLifecycle.CancelCanMissTheBoot`).  It
  reaches the boot exactly when that boot has stored its cancel function and nothing has replaced or cleared it
  since (`StackLifecycle.CancelReachesNewestIff`).  It can also leave a teardown reporting into the next boot's
  list (`StackLifecycle.CancelledWorkersMix`).
- After a completed boot another one is refused (`StackLifecycle.BootedRefusesUp`), but a restart that boots leaves
  the stack idle (`StackLifecycle.RestartEndsIdle`), so that an up is accepted on running services.
- Redis patterns read brackets and backslashes specially, so a bracket can hide a key from the browser
  (`RedisTree.BracketHidesKey`).  A key that is alone in its database is met exactly when the pattern of each of
  its levels selects it (`RedisTree.OnlyKeyIsMetIff`); without these characters before their colons all keys are
  met (`RedisTree.PlainKeysAreMet`).

What the outside world decides is a parameter: which ports are bound and processes alive, the clock, map
iteration order, scan pages, what GitHub answers, how a backend call ends, letter case folding.

## Model

| member | source | states |
|---|---|---|
| Ports.NamedPorts | pkg/instance/ports.go:283-298 | every port name has a key, and every key holds the port of some name that is rendered as it, in any iteration order of the networks |
| Ports.LabKeys | pkg/instance/ports.go:30-48 | without a clash, which plan port stands under `lab-backend`, `lab-frontend` and `command-center`; `ObservabilityKeys`, `CBTKeys` and `XatuKeys` say it for the other keys |
| Ports.NetworkKeys | pkg/instance/ports.go:289-295 | and which under the five keys of a network |
| Ports.AllPorts | pkg/instance/ports.go:262-280 | ascending: the positive ports of one listing of the plan's names, one for every key |
| Ports.LabelsDistinctIffNoClash | pkg/instance/ports.go:289-295 | two port names share a key exactly when one network is called like another with a service prefix in front |
| Ports.ListedBelongs | pkg/instance/ports.go:262-298 | in every order, what is listed belongs to the plan, and a port listed twice is one the plan has twice |
| Ports.SafeListing | pkg/instance/ports.go:262-298 | with distinct keys the listing holds the plan's positive ports, each as often as the plan has names for it |
| Ports.ClashLosesPort | pkg/instance/ports.go:289-295 | in a plan without duplicate ports: of two names under one key with positive ports, every listing misses one |
| Ports.ListedInFullIffNoClash | pkg/instance/ports.go:283-298 | a plan of different positive ports is listed in full in every order exactly when no two of its networks clash |
| Ports.DuplicatesOf | pkg/instance/ports.go:342-359 | exactly the positive ports that the listing has under several keys, ascending, each once |
| Ports.Overlaps | pkg/instance/ports.go:362-379 | the ports that the listings of both plans have, ascending |
| Ports.OverlapWithSet | pkg/instance/allocator.go:255-267 | the listed ports that are in use, ascending |
| PortPlans.BuildPortPlan | pkg/instance/ports.go:96-158 | fails for a missing config, a negative slot and a listing that repeats a port, naming the repeated ports; otherwise the plan of that slot |
| PortPlans.TakesConfigured | pkg/instance/ports.go:107-140 | every configured port is taken when it is not zero, and each second ClickHouse HTTP port is the one after the first |
| PortPlans.TakesRedis | pkg/instance/ports.go:109 | the infrastructure's Redis port comes before that of the Redis section, and that before the default |
| PortPlans.TakesDefaults | pkg/constants/constants.go:95-113 | every port that is not configured has its default |
| PortPlans.NetworkTakes | pkg/instance/ports.go:143-151 | a network's service ports stand at its offset from the lab's bases, its metrics ports at its place among the enabled networks |
| PortPlans.EnabledAt | pkg/config/config.go:369-378 | the enabled networks, each behind as many as are enabled before it |
| PortPlans.RefusedIffDuplicates | pkg/instance/ports.go:153-155 | with names that do not clash, a plan is refused exactly when two of its names carry one positive port |
| PortPlans.PlanShift | pkg/instance/ports.go:105-151 | every named port of a slot is its slot-0 port plus 1000 times the slot |
| PortPlans.PortSetShift | pkg/instance/ports.go:105-151 | the ports of every slot are the shifted slot-0 ports exactly when all base ports are positive |
| PortPlans.DroppedPortReappears | pkg/instance/ports.go:270-275 | a base port that is not positive makes the ports of some later slot differ from the shifted slot-0 ports |
| PortPlans.DuplicatesPersist | pkg/instance/ports.go:153-155 | duplicates at one slot are duplicates at every later one |
| PortPlans.DuplicatesAtEverySlotOrNone | pkg/instance/ports.go:153-155 | with positive base ports, duplicates occur at every slot or at none |
| Registry.ManifestRegistry.Load | pkg/instance/registry.go:111-123 | succeeds exactly when the instance has a file that parses, with the manifest stored there; otherwise tells a missing file from an unreadable one |
| Registry.ManifestRegistry.LoadAll | pkg/instance/registry.go:126-158 | one manifest for every file, ascending by id; fails exactly when some file is unreadable |
| Registry.ListedOnce | pkg/instance/registry.go:126-158 | with every manifest under its own id, none is listed twice |
| Registry.ManifestRegistry.Save | pkg/instance/registry.go:52-108 | refuses a missing manifest, an empty id, a garbled file, and a file of another config exactly when both paths are known and differ; otherwise stores the manifest with the time, its creation time kept, and changes no other file |
| Registry.OneSaveKeepsConfig | pkg/instance/registry.go:85-108 | one save hands a file from one config path to another only when one of them is empty |
| Registry.ConfigIsKeptIff | pkg/instance/registry.go:85-108 | through any saves an instance's file stays with its config exactly when none of that instance leaves the path empty |
| Registry.ConfigIsGivenUp | pkg/instance/registry.go:94-96 | a save that is refused, and is let through after one without a path |
| Registry.ManifestRegistry.Delete | pkg/instance/registry.go:161-182 | removes the instance's file and local copy, nothing else |
| Allocator.ReservationHasBacking | pkg/instance/allocator.go:192-206 | a live process or a bound port of the listing stands behind the reservation |
| Allocator.IsActiveManifest | pkg/instance/allocator.go:169-190 | running, or reserved with a live process, a bound listed port or a write in the last ten minutes |
| Allocator.PortAllocator.ActiveRegistryPorts | pkg/instance/allocator.go:148-167 | exactly the ports listed for the active manifests of other instances |
| Allocator.PortAllocator.TrySlot | pkg/instance/allocator.go:94-116 | what the loop decides about a slot from what it lists of the slot's plan: cancelled, duplicate ports, passed over or taken |
| Allocator.PortAllocator.FindSlot | pkg/instance/allocator.go:93-135 | ends as the first slot that is not passed over says, each judged on its listing; a slot found avoids the ports in use and, when probing, the bound ones |
| Allocator.PortAllocator.Allocate | pkg/instance/allocator.go:53-136 | the error cases in order; a claim saves the reserved manifest with the plan found on the listings of lab and registry; nothing changes otherwise |
| Allocator.SafeNamesFit | pkg/instance/allocator.go:93-135 | without clashing names the search on listings ends as the search on plans |
| Allocator.SafeNamesActive | pkg/instance/allocator.go:148-167 | without clashing names the ports in use are those of the active plans |
| Allocator.ListedByFile | pkg/instance/allocator.go:148-167 | with every manifest under its own id, listing manifest by manifest and file by file gives the same ports |
| Allocator.FirstFitIsLeast | pkg/instance/allocator.go:93-133 | the slot found is the least whose ports avoid those in use and those bound; some slot is found if one exists and nothing interrupts |
| Allocator.FoundAvoidsUsed | pkg/instance/allocator.go:103-107 | the plan found shares no port with those in use |
| Allocator.DuplicatesFailAtOnce | pkg/instance/allocator.go:98-101 | with positive base ports, a duplicate error comes from slot 0 |
| Allocator.ExhaustedNeedsOccupiedPorts | pkg/instance/allocator.go:93-135 | running out of slots means that the slot limit is at most m times the number of occupied ports, m being the most plan ports of one residue |
| DefaultSlots.BasePorts | pkg/constants/constants.go:95-114 | exactly which ports the default lab has at slot 0, all positive |
| DefaultSlots.OverlapIffSixApart | pkg/instance/ports.go:105-151 | two slots of the default lab overlap exactly when equal or six apart |
| DefaultSlots.NextClaim | pkg/instance/allocator.go:93-135 | after k concurrent claims the next gets slot 12 (k / 6) + k % 6, or none when that is beyond the limit |
| DefaultSlots.ConcurrentClaims | pkg/instance/allocator.go:80-133 | in any run of concurrent claims whose slots lie below the limit, each claim holds its slot of that sequence |
| DefaultSlots.ClaimAfterClaims | pkg/instance/allocator.go:80-135 | how the next claim after such a run ends |
| DefaultSlots.FiftyTwoInstances | pkg/instance/allocator.go:16-25 | with the default limit 52 instances fit, and the next claim finds no slot |
| DefaultSlots.Claim | pkg/instance/allocator.go:53-136 | a claim of the allocator on a tidy registry leaves the registry that these results speak of, and keeps it tidy |
| DefaultSlots.ClaimInTurn | pkg/instance/allocator.go:53-136 | an allocator that serves requests in turn leaves the registry of that run, and concurrent claim k gets its slot, or none beyond the limit |
| Protocol.SeenPortsAreUsed | pkg/instance/allocator.go:148-167 | a claim lists all ports of every occupied file of another instance, although the files were read one by one |
| Protocol.FoundPlanIsDisjoint | pkg/instance/allocator.go:86-107 | so the plan of a claim avoids every occupied file |
| Protocol.StepKeepsInv | pkg/instance/registry.go:52-82 | every guarded step of claiming, finalizing, stopping, releasing and deleting keeps the invariant |
| Protocol.GuardedRunsKeepInv | pkg/instance/allocator.go:80-190 | so does every guarded run |
| Protocol.GuardedRunsAreSafe | pkg/instance/allocator.go:80-190 | in every guarded run from an empty registry the ports of reserved and running manifests stay pairwise disjoint |
| Collisions.LapsedReservationIsReassigned | pkg/instance/allocator.go:177-186 | a run without the grace-period guard in which two instances hold the same ports |
| Collisions.FinalizingStoppedManifestCollides | pkg/commands/cc.go:45-48 | a run in which finalizing a stopped manifest takes back reassigned ports |
| Collisions.SecondProcessCollides | pkg/orchestrator/orchestrator.go:615-669 | a run with two processes of one instance that ends with a collision |
| Collisions.ClashingNamesCollide | pkg/instance/ports.go:289-295 | a run in which one instance's networks clash, the next claim does not see the hidden port, and both end up with it |
| NameClash.HiddenPort | pkg/instance/ports.go:283-298 | a lab with networks `x` and `api-x`, and an iteration order in which port 8091 of its plan is not listed |
| NameClash.MovedTakesSlotOne | pkg/instance/allocator.go:93-133 | a lab that meets it at slot 0 and is then given slot 1, on the hidden port |
| Orchestrator.RuntimeOrchestrator.FinalizeRuntimeManifest | pkg/orchestrator/orchestrator.go:615-653 | saves the running manifest with its processes, URLs and repositories; the in-memory manifest changes only when the save succeeds |
| Orchestrator.RuntimeOrchestrator.MarkRuntimeStopped | pkg/orchestrator/orchestrator.go:655-669 | stopped in memory first, then saved |
| Orchestrator.RuntimeOrchestrator.ReleaseRuntimeReservation | pkg/orchestrator/orchestrator.go:671-689 | stopped with the error in memory first, then saved |
| Orchestrator.RuntimeOrchestrator.Up | pkg/orchestrator/orchestrator.go:206-229 | a reservation ends running, or stopped with the error as its text, in memory and on file; a failed Up on anything else changes nothing |
| Orchestrator.WritesAreProtocolSteps | pkg/orchestrator/orchestrator.go:615-689 | these writes are the finalize, stop and release steps of the protocol |
| Dependencies.ParseDependencies | pkg/seeddata/dependencies.go:130-148 | all dependency strings in order, or failure when one is bad |
| Dependencies.ParsesIff | pkg/seeddata/dependencies.go:554-584 | a string is read exactly as the dependency that one of the three formats makes of it, and refused when it has none of them |
| Dependencies.ParsesTable | pkg/seeddata/dependencies.go:569-580 | `db.table` is the external `db_table`, for all identifiers |
| Dependencies.RefusedByExample | pkg/seeddata/dependencies.go:41-44 | names without a dot, with two, with a dash, or with a digit in front are refused |
| Dependencies.ParseAllIff | pkg/seeddata/dependencies.go:130-148 | a list is read exactly when each of its strings is, in the same order |
| Dependencies.Resolver.ResolveDependencyTree | pkg/seeddata/dependencies.go:152-186 | terminates on every finite repository, returns the tree of the recursive definition and leaves the path marks as they were, whatever the outcome |
| Dependencies.Resolver.ResolveTransformationTree | pkg/seeddata/dependencies.go:203-237 | children by name, the last dependency of a name winning; the first failing dependency fails the model |
| Dependencies.ResolvesIffPathsGood | pkg/seeddata/dependencies.go:152-237 | success under given marks: every chain of dependencies avoids them, repeats no model and ends in a good one |
| Dependencies.ResolvesIff | pkg/seeddata/dependencies.go:152-237 | success exactly when no cycle, missing model or bad dependency string is reachable |
| Dependencies.FailureBlames | pkg/seeddata/dependencies.go:152-237 | a failure names a reachable model that is on a cycle or marked, has bad dependency strings, or does not exist, as its kind says |
| Dependencies.SmallerVisited | pkg/seeddata/dependencies.go:159-165 | fewer marks change neither success nor the tree |
| Dependencies.DependencyCollector.CollectExternalDeps | pkg/seeddata/dependencies.go:251-264 | adds exactly the externals of the tree, each once, in any order of the children |
| Dependencies.DependencyCollector.CollectIntermediateDeps | pkg/seeddata/dependencies.go:301-317 | adds exactly the transformations of the tree, without the root, each once |
| Dependencies.GetExternalDependencies | pkg/seeddata/dependencies.go:241-248 | the externals of the tree, each once |
| Dependencies.GetIntermediateDependencies | pkg/seeddata/dependencies.go:291-298 | the transformations below the root, each once |
| Dependencies.ExternalsExact | pkg/seeddata/dependencies.go:241-264 | the externals of a resolved tree are exactly the reachable ones |
| Dependencies.TransformationsExact | pkg/seeddata/dependencies.go:291-317 | the transformations of a resolved tree are exactly the reachable ones, none of them marked |
| Dependencies.TransformationsBelowExact | pkg/seeddata/dependencies.go:291-317 | below the root stand exactly the other reachable transformations |
| Dependencies.FollowsDeclaredIff | pkg/seeddata/dependencies.go:216-235 | the trees follow what a model declares exactly when it names nothing with two kinds |
| Dependencies.ListsDeclaredIff | pkg/seeddata/dependencies.go:216-317 | the lists of a root hold all that is declared below it exactly when each hidden declaration is reached another way |
| Dependencies.UnambiguousListsDeclared | pkg/seeddata/dependencies.go:216-317 | so they do when no model below the root names a dependency with two kinds |
| Dependencies.AmbiguousDependencyIsLost | pkg/seeddata/dependencies.go:216-235 | a model whose declared transformation is missing from its tree |
| Dependencies.ParsesPrefixed | pkg/seeddata/dependencies.go:554-572 | a prefixed name parses to that kind and name |
| Dependencies.FlattenModel | pkg/seeddata/dependencies.go:152-317 | resolving and flattening: succeeds as above, and lists each reachable model exactly once |
| Dependencies.CrossDatabaseModel | pkg/seeddata/dependencies.go:569-580 | a model that names a table of another database resolves, needs the external of that name and nothing else |
| DependencyTable.LoadDependencies | pkg/configtui/command.go:143-159 | the table holds exactly the resolvable models, each with its externals and then its transformations, each once |
| DependencyTable.ListedIffNeeded | pkg/configtui/command.go:143-159 | a model's list names exactly what it needs, directly or not |
| DependencyTable.LoadedTableIsClosedIff | pkg/configtui/command.go:143-159 | the loaded table is transitively closed exactly when a model that another reaches only as an external needs nothing that the other does not |
| DependencyTable.NamesApartAgree | pkg/configtui/command.go:143-159 | so it is when no model uses the name of a transformation for an external |
| DependencyTable.Model.IsModelNeededByEnabled | pkg/configtui/model.go:313-344 | some enabled model of either list has the name among its dependencies |
| DependencyTable.Model.EnableMissingDependencies | pkg/configtui/model.go:285-309 | judges each entry on what is enabled by then, externals first; counts what it enables and marks the model dirty exactly then |
| DependencyTable.OnePassWidens | pkg/configtui/model.go:285-309 | on a closed table it enables exactly what the enabled entries need |
| DependencyTable.OnePassIsEnoughIff | pkg/configtui/model.go:285-309 | a second pass finds nothing, for all entries, exactly when the table is transitively closed |
| DependencyTable.WidenedIsLeastClosed | pkg/configtui/model.go:285-309 | on a closed table that is the least superset closed under the dependencies |
| DependencyTable.SecondCallEnablesNothing | pkg/configtui/model.go:285-309 | what two calls make of the loaded table; unless a shared name breaks it, the first closes the enabled set, minimally, and the second returns 0 |
| DependencyTable.SharedNameNeedsSecondCall | pkg/configtui/model.go:285-309 | a repository with such a name, and entries for which the second call enables one more |
| ReleaseOrder.AnalyzeDependencies | pkg/release/deps.go:24-54 | what each selected project depends on and is required by among the selection, in the order and as often as found; whether there is any; and an order of the projects, each once |
| ReleaseOrder.SelectedEdgeIff | pkg/release/deps.go:24-54 | one project depends on another exactly when both are selected and the table lists it |
| ReleaseOrder.ShippedEdgeIff | pkg/constants/constants.go:153-156 | in the shipped table: xatu-cbt on cbt, lab-backend on lab |
| ReleaseOrder.Sorter.Visit | pkg/release/deps.go:127-142 | lists what a project needs and then itself, leaving the projects under way as they were |
| ReleaseOrder.TopologicalSort | pkg/release/deps.go:121-149 | terminates on any graph and lists exactly the projects reached, each once, a dependency first unless it leads back |
| ReleaseOrder.OrderedIsTopologicalIffAcyclic | pkg/release/deps.go:121-149 | the order is topological exactly when the dependencies have no cycle |
| ReleaseOrder.SplitByDependencyPhase | pkg/release/deps.go:82-105 | the three phases, each in the given order |
| ReleaseOrder.PhasesPartition | pkg/release/deps.go:82-105 | the phases hold every project as often as the order does |
| ReleaseOrder.DependenciesAreFirst | pkg/release/deps.go:45-47 | every dependency of a project is in the first phase |
| ReleaseOrder.PhasesTopological | pkg/release/deps.go:82-105 | the phases one after another are still a topological order |
| ReleaseOrder.PlanRelease | pkg/release/deps.go:24-105 | both steps together, for every table and selection |
| ReleaseOrder.ShippedTableIsAcyclic | pkg/constants/constants.go:153-156 | the shipped table has no cycle in any selection |
| ReleaseExecution.ReleaseReport.AddRelease | pkg/release/report.go:38-66 | appends one entry: released exactly when the release succeeded, otherwise failed with its error; a missing version is a dash |
| ReleaseExecution.ReleaseReport.AddSkipped | pkg/release/report.go:69-78 | appends one skipped entry with its reason |
| ReleaseExecution.ReleaseReport.UpdateWithWatchResult | pkg/release/report.go:81-105 | only the first entry of the project changes: succeeded on success, timed out on a timeout, otherwise failed with the error or the conclusion, with the duration and commit of the result |
| ReleaseExecution.ReleaseReport.UpdateFromMultiWatch | pkg/release/report.go:108-112 | the same for every result, in any order |
| ReleaseExecution.ReleaseReport.Count | pkg/release/report.go:140-176 | the number of entries with the property |
| ReleaseExecution.CountsSum | pkg/release/report.go:140-176 | succeeded, failed, skipped and released add up to the entries plus the skipped ones that a watch result overwrote |
| ReleaseExecution.Service.ExecuteRelease | pkg/commands/lab_release.go:535-565 | asks GitHub exactly once, in the way the project is versioned; what it accepts is a successful result of that project, what it refuses is its error |
| ReleaseExecution.ExecutePhase1 | pkg/commands/lab_release.go:844-901 | releases and reports the phase in order, watching each build, and collects the failed projects |
| ReleaseExecution.FailedInFirst | pkg/commands/lab_release.go:864-899 | failed are exactly those refused or whose watched build did not succeed |
| ReleaseExecution.ExecutePhase2 | pkg/commands/lab_release.go:904-974 | skips a project with a failed dependency, releases the others and leaves their builds to watch |
| ReleaseExecution.ExecutePhase3 | pkg/commands/lab_release.go:977-1018 | releases the independent projects |
| ReleaseExecution.RunMultiRelease | pkg/commands/lab_release.go:459-521 | three phases and a final watch; every entry says what GitHub's answers make of its project, it is failed exactly when the release was refused or its followed build did not succeed, and the failures are the number of these projects |
| ReleaseExecution.FinalEntry | pkg/release/report.go:38-105 | over GitHub's answers alone: a blocked project is skipped, a refused one failed with the error, an unfollowed one released, a followed one as its build ended |
| ReleaseExecution.FinalFailures | pkg/commands/lab_release.go:516-518 | the failures counted are the projects that were refused or whose followed build did not succeed |
| ReleaseExecution.SkipShows | pkg/commands/lab_release.go:923-943 | a skip names the first failed dependency and the version that would have been released |
| ReleaseExecution.RunOutcome | pkg/commands/lab_release.go:844-1018 | released are exactly the configured projects that no failed dependency blocks; reported the configured and the blocked ones |
| ReleaseExecution.NeverReleasedAfterFailure | pkg/commands/lab_release.go:924-947 | a released second-phase project has no failed dependency, and its configured dependencies were released before |
| ReleaseExecution.FirstPhaseIsNeverSkipped | pkg/commands/lab_release.go:859-875 | a first-phase project is released even when a dependency of its own failed |
| ReleaseExecution.NothingAfterFailureIffShallow | pkg/commands/lab_release.go:844-1018 | whatever GitHub answers nothing is released after a failed dependency, exactly when no project that others wait for depends on anything |
| ReleaseExecution.DeepRunFails | pkg/commands/lab_release.go:859-875 | otherwise a GitHub that refuses every release gives a run in which a project is asked for although its dependency failed |
| ReleaseExecution.ShallowIff | pkg/release/deps.go:24-54 | in terms of the edges: no selected project is the middle of a chain of two |
| ReleaseExecution.ShippedIsShallow | pkg/constants/constants.go:153-156 | the shipped table has no such chain, whatever is selected |
| ReleaseExecution.ShippedRunsAreSafe | pkg/constants/constants.go:153-156 | so with the shipped table nothing is released after a dependency failed |
| ReleaseExecution.RunReportsOnce | pkg/commands/lab_release.go:844-1018 | no project has two entries |
| ReleaseExecution.FinalReports | pkg/commands/lab_release.go:459-508 | the final report has one entry for each configured or blocked project and no other |
| ReleaseExecution.FinalCounts | pkg/release/report.go:140-176 | after any run the four counts add up to the number of entries |
| Overrides.LoadModelStates | pkg/configgen/generator.go:528-570 | the explicitly disabled and the other listed models, and the default |
| Overrides.GetLocallyEnabledTables | pkg/configgen/generator.go:416-458 | in order, the discovered models that the file does not disable, or which of the two readings failed |
| Overrides.ReadersAgree | pkg/configtui/overrides.go:248-272 | on every file that loads, exactly the discovered models are kept that IsModelDisabled does not disable |
| OverrideMaps.RemoveEmptyMaps | pkg/configgen/generator.go:575-597 | leaves, in the nested maps it edits, exactly what ends in a leaf |
| OverrideMaps.ExpandDefaultEnabled | pkg/configgen/generator.go:359-410 | turns an allowlist, in the nested maps it edits, into explicit disabling of every discovered model it does not list |
| OverrideMaps.Prepare | pkg/configgen/generator.go:208-218 | loading and editing in place leaves maps that hold the prepared document of `Overrides.VerdictPreservedIff` |
| Overrides.VerdictOfTree | pkg/configtui/overrides.go:248-272 | the verdict of the typed reader, read off the document tree |
| Overrides.VerdictPreservedIff | pkg/configgen/generator.go:213-218 | pruning and expanding keep a model's verdict unless, in an allowlist, its listing holds no leaf or it is unlisted and unknown |
| Overrides.PreparedIsWellTyped | pkg/configgen/generator.go:213-218 | the prepared document still loads |
| Overrides.PreparedVerdict | pkg/configgen/generator.go:213-218 | so the typed readers agree before and after for every discovered model, with that one exception |
| Overrides.SaveOverridesFromEntries | pkg/configtui/overrides.go:90-222 | writes the disabled models and, in an allowlist, the enabled ones with a configuration block, sorted |
| Overrides.WrittenMeans | pkg/configtui/overrides.go:133-213 | what the written file says about a key |
| Overrides.EnvMeans | pkg/configtui/overrides.go:122-144 | an environment value is written exactly when enabled and not empty |
| Overrides.SaveThenLoad | pkg/configtui/overrides.go:35-244 | loading a saved file gives back each verdict, except that of an enabled model in an allowlist without a block |
| Overrides.SaveKeepsConfig | pkg/configtui/overrides.go:225-244 | configuration blocks of written models come back unchanged |
| Overrides.LoadsWhatIsWritten | pkg/configtui/overrides.go:35-67 | loading the document that the lines hold gives back every flag, variable and configuration block |
| Overrides.SavedFileLoads | pkg/configtui/overrides.go:35-244 | so it does after saving, for all models with different keys |
| Overrides.BlockComesBack | pkg/configtui/overrides.go:225-244 | the block of a model that is disabled, or listed in an allowlist, is there again after saving and loading |
| Overrides.DisabledComesBack | pkg/configtui/overrides.go:195-213 | a disabled model without a block comes back as disabled and nothing more |
| Overrides.RefusesOtherEntries | pkg/configtui/overrides.go:52-54 | an entry, its flag or its block of another type makes the file unreadable |
| Overrides.StatesRefuseOtherEntries | pkg/configgen/generator.go:528-570 | the second reader refuses an entry or flag of another type, and does not look at the block |
| Overrides.VariablesAreRead | pkg/configtui/overrides.go:21 | a variable is read as its text, a boolean as its word, one without a value as empty |
| StackLifecycle.StackHandler.PostStackUp | pkg/cc/api_stack.go:31-48 | refused while starting, stopping or running; accepted, it starts without error, cancel function or progress |
| StackLifecycle.StackHandler.PostStackDown | pkg/cc/api_stack.go:114-133 | refused while starting or stopping |
| StackLifecycle.StackHandler.PostStackCancel | pkg/cc/api_stack.go:353-376 | accepted only while starting; forgets the cancel function and the progress |
| StackLifecycle.StackHandler.GetStackStatusData | pkg/cc/api_stack.go:297-341 | an idle stack is shown as stopped, whatever services run; the services are counted |
| StackLifecycle.StackHandler.Detect | pkg/cc/stack_context.go:76-92 | a new handler is running exactly when more than half of the services are; runs may begin with this step |
| StackLifecycle.InFlightStep | pkg/cc/api_stack.go:31-428 | which step starts and which ends a worker |
| StackLifecycle.WorkersBounded | pkg/cc/api_stack.go:31-428 | workers in flight never exceed the accepted cancels, plus one while starting or stopping |
| StackLifecycle.BoundIsReachedIdle | pkg/cc/api_stack.go:353-428 | for every k a run with k cancels and k workers on an idle stack |
| StackLifecycle.BoundIsReachedBusy | pkg/cc/api_stack.go:114-183 | and one with k + 1 workers on a busy one |
| StackLifecycle.CancelFreeRuns | pkg/cc/api_stack.go:31-294 | without an accepted cancel a worker exists exactly while the stack is busy, and the progress list is what the newest worker reported since its last reset |
| StackLifecycle.StatusIsLastSet | pkg/cc/api_stack.go:31-428 | in every run the status is the one that the last event to set one left: a request that was accepted, a worker's end, or a detection |
| StackLifecycle.ErrorIsLastSet | pkg/cc/api_stack.go:31-428 | so is the error: cleared by an accepted up, down or restart and by a cancel that ends well, set by a worker that fails |
| StackLifecycle.RunningIff | pkg/cc/api_stack.go:85-108 | the stack is running exactly when the last event to set its status was a boot that ended without error, or a detection of most services |
| StackLifecycle.BootedRefusesUp | pkg/cc/api_stack.go:31-48 | so after a completed boot another up is refused until something sets the status again |
| StackLifecycle.FailureIsShown | pkg/cc/api_stack.go:85-108 | a worker that fails leaves the stack idle with its error |
| StackLifecycle.RestartEndsIdle | pkg/cc/api_stack.go:236-294 | the second half of a restart leaves the stack idle even when it boots |
| StackLifecycle.ProgressSinceReset | pkg/cc/api_stack.go:31-428 | in every run the progress list is what all workers reported since the stack last began something new, in order |
| StackLifecycle.ReporterInFlight | pkg/cc/api_stack.go:31-428 | and only workers in flight report |
| StackLifecycle.CancelBootIff | pkg/cc/api_stack.go:56-79 | in every run the stored cancel function is that of the last boot to have stored one, unless it was dropped since |
| StackLifecycle.CancelReachesIff | pkg/cc/api_stack.go:353-376 | an accepted cancel cancels exactly the boot whose function is stored |
| StackLifecycle.CancelReachesNewestIff | pkg/cc/api_stack.go:56-79 | it reaches the newest boot exactly when that has stored its function and nothing has replaced or cleared it since |
| StackLifecycle.FirstCancelReachesIff | pkg/cc/api_stack.go:56-79 | without earlier cancels: unless it comes before the boot stored its function, or after a finished boot's deferred reset |
| StackLifecycle.CancelCanMissTheBoot | pkg/cc/api_stack.go:56-64 | a run after which an accepted cancel leaves the registered boot uncancelled |
| StackLifecycle.CancelledWorkersOverlap | pkg/cc/api_stack.go:353-428 | a run with a teardown still under way beside a new boot |
| StackLifecycle.CancelledWorkersMix | pkg/cc/api_stack.go:397-408 | the teardown's late event then stands in the new boot's progress list |
| SSEHub.Hub.Register | pkg/cc/sse.go:44-57 | a new client with an empty buffer |
| SSEHub.Hub.Unregister | pkg/cc/sse.go:60-75 | removes and closes a client once, and leaves one that is gone alone |
| SSEHub.Hub.Broadcast | pkg/cc/sse.go:78-91 | offers the event to every client, in any order |
| SSEHub.Hub.Stop | pkg/cc/sse.go:94-104 | closes and removes every client |
| SSEHub.OfferKeepsClient | pkg/cc/sse.go:84-90 | an event that is offered is newer than all the client was offered by that broadcaster |
| SSEHub.RunsKeepInv | pkg/cc/sse.go:44-104 | every interleaving of hub steps keeps the invariant |
| SSEHub.ClientsAreServed | pkg/cc/sse.go:44-104 | in every interleaving a channel is closed at most once and after removal, a buffer holds at most 64, events come in order without repetition, and one is lost only when 64 are pending |
| SSEHub.NothingUnaccountedFor | pkg/cc/sse.go:78-91 | when no broadcast runs, every event sent while the client was in the hub was received, is pending or was lost, once |
| SSEHub.ReadingDrains | pkg/cc/sse.go:133-156 | a client that goes on reading gets everything pending, in order |
| SSEHub.BroadcastIsSteps | pkg/cc/sse.go:78-91 | a broadcast run alone, as the method states it, is a run of the interleaving model |
| SSEHub.UnregisterIsSteps | pkg/cc/sse.go:60-75 | so is an unregistration |
| SSEHub.StopIsSteps | pkg/cc/sse.go:94-104 | and so is stopping |
| ClaudeStream.OpenToolStep | pkg/ai/claude_stream.go:244-267 | how one event changes which tool call is open and its input |
| ClaudeStream.AdvanceIsRight | pkg/ai/claude_stream.go:81-187 | the running state is all one needs to know of the messages so far |
| ClaudeStream.AskStreamState.HandleMessage | pkg/ai/claude_stream.go:81-187 | one message takes the state, the emitted chunks and the answer one step further, with or without a callback |
| ClaudeStream.AskStreamState.StreamEventChunks | pkg/ai/claude_stream.go:228-302 | emits the chunks of one event, numbered on, and follows the tool call |
| ClaudeStream.AskStreamState.HandleReceiveError | pkg/ai/claude_stream.go:63-79 | the end of the file ends the turn with its answer; an ended context, an interrupt and any other error fail it, each in its way |
| ClaudeStream.AskStream | pkg/ai/claude.go:345-372 | a turn takes the messages up to the first result or failed read; its chunks are theirs, numbered 1, 2, 3 and so on, and its answer that of their text unless a read failed or its context ended before a result |
| ClaudeStream.TurnIsUnique | pkg/ai/claude.go:343-372 | what arrives determines the messages that a turn takes |
| ClaudeStream.ChunksAreConsistent | pkg/ai/claude_stream.go:81-145 | the answer chunks of stream events are the streamed text, and whole assistant blocks are shown only before the first of it |
| ClaudeStream.DeltaChunks | pkg/ai/claude_stream.go:322-340 | a delta's thinking and then its text each become one chunk, when not empty |
| ClaudeStream.StartChunks | pkg/ai/claude_stream.go:341-360 | the start of a block shows its text, and for a tool call `Using tool:` with its name, or `unknown` |
| ClaudeStream.SilentMessages | pkg/ai/claude_stream.go:322-369 | events of other types, and those without the structure of their type, show nothing |
| ClaudeStream.StreamedTextIs | pkg/ai/claude_stream.go:104-107 | the streamed text of a turn is the text fields of its deltas and starting blocks, one after another |
| ClaudeStream.StopSummarises | pkg/ai/claude_stream.go:244-267 | the end of a tool's block shows the summary of that tool with exactly the input fragments of its deltas since it started |
| ClaudeStream.StopShowsNothing | pkg/ai/claude_stream.go:256-267 | a block that ends without a tool call under way shows nothing |
| ClaudeStream.AssistantChunks | pkg/ai/claude_stream.go:117-140 | while nothing has been streamed, the blocks of a whole message that are not blank are answers, and afterwards none |
| ClaudeStream.SaidInMessages | pkg/ai/claude_stream.go:117-128 | the assistant's text is these blocks, one under another |
| ClaudeStream.TurnStates | pkg/ai/claude_stream.go:156-165 | a turn whose result has text answers with it |
| ClaudeStream.TurnAnswers | pkg/ai/claude_stream.go:189-200 | otherwise with what was said in whole messages, or else with what was streamed |
| ClaudeStream.TurnFails | pkg/ai/claude_stream.go:168-187 | without text it fails with its result's error, or the last whole message's, or for being empty |
| ClaudeStream.ToolSummary | pkg/ai/claude_stream.go:256-267 | a summary is made from exactly the input fragments since its own tool start |
| ClaudeStream.NoToolNoSummary | pkg/ai/claude_stream.go:256-267 | a block that ends outside a tool call shows nothing |
| ClaudeStream.FailsOnlyWhenBlank | pkg/ai/claude_stream.go:163-200 | a turn fails only when all its text is blank; an error result with text is an answer |
| RedisTree.SplitMeans | pkg/cc/redis_admin.go:828-844 | a key is the leaf, or its branch is a longer prefix of it |
| RedisTree.Tree | pkg/cc/redis_admin.go:202-256 | unless truncated, exactly the branches and leaves of the keys read, sorted; truncated means 5000 of them, with the cursor after the page the limit was reached in |
| RedisTree.Expand | pkg/cc/redis_admin.go:184-256 | over a complete scan, exactly the branches and leaves of the keys that the pattern selects |
| RedisTree.BranchHolds | pkg/cc/redis_admin.go:828-844 | the keys that start with a branch are those that split into it |
| RedisTree.Descend | pkg/cc/redis_admin.go:184-256 | descending through every branch ends, and meets exactly the keys shown at each of their levels, each as a leaf once |
| RedisTree.RangeTakesBracket | pkg/cc/redis_admin.go:197-200 | in `[a-]x]:*` the first closing bracket is the end of a range and the class goes on |
| RedisTree.RangeSelects | pkg/cc/redis_admin.go:197-200 | a range selects the characters between its ends, in either order; `ClassSelects` and `OneSelects` say it for the other forms |
| RedisTree.PlainSelects | pkg/cc/redis_admin.go:197-200 | the pattern of a prefix without bracket or backslash selects every key with the prefix |
| RedisTree.PlainKeysAreMet | pkg/cc/redis_admin.go:184-256 | so from the empty prefix every non-empty key is met when no key has these characters before its last colon |
| RedisTree.OnlyKeyIsMetIff | pkg/cc/redis_admin.go:184-256 | a key alone in its database is met exactly when the pattern of each of its levels selects it |
| RedisTree.BracketMissesItself | pkg/cc/redis_admin.go:197-200 | the pattern `a[b]:*` misses the key `a[b]:x` |
| RedisTree.BracketHidesKey | pkg/cc/redis_admin.go:184-256 | so descending never meets that key |
| Resp.BuildProtocol | pkg/infrastructure/bounds_seeder.go:239-245 | the stream is the SET commands as arrays of bulk strings, one after another |
| Resp.NumberReadsBack | pkg/infrastructure/bounds_seeder.go:243-244 | a printed length reads back, whatever follows it |
| Resp.CommandReadsBack | pkg/infrastructure/bounds_seeder.go:243-244 | one command reads back, whatever follows it |
| Resp.DecodeEncode | pkg/infrastructure/bounds_seeder.go:239-245 | the stream decodes to exactly the original commands, for all bytes |
| Resp.EncodeInjective | pkg/infrastructure/bounds_seeder.go:239-245 | no two lists of bounds have the same stream |
| Reconcile.SanitizedIsSanitized | pkg/instance/identity.go:42-52 | a sanitized id holds only allowed characters, starts and ends with a letter or digit, and sanitizes to itself |
| Reconcile.SanitizesRun | pkg/instance/identity.go:42-52 | any run of other characters between two ids becomes one dash |
| Reconcile.SanitizeFailsIff | pkg/instance/identity.go:42-52 | an id is refused exactly when no lower-case letter or digit is left of it |
| Reconcile.LabelsLeadBack | pkg/instance/manifest.go:174-196 | the labels made for a sanitized id lead back to it |
| Reconcile.ProjectNameLeadsBack | pkg/instance/reconcile.go:276-288 | so does the project name alone |
| Reconcile.ProjectIDIff | pkg/instance/reconcile.go:282-287 | a project names an instance exactly when it is the prefix with that id |
| Reconcile.OrphanConfigAt | pkg/instance/reconcile.go:178-223 | an orphan's config path is that of its first resource with one |
| Reconcile.CheckPIDs | pkg/instance/reconcile.go:225-238 | which of the recorded processes are alive |
| Reconcile.CheckPorts | pkg/instance/reconcile.go:240-264 | which named positive ports of the listing are bound |
| Reconcile.ReconcileManifest | pkg/instance/reconcile.go:146-176 | the entry of a manifest: backed exactly when a process lives, a listed port is bound or a container exists; stale exactly when in use on paper without backing |
| Reconcile.ReconcileAll | pkg/instance/reconcile.go:85-144 | one entry for each manifest with an id and one for each id that only resources have, ascending by id; Docker's listing error is passed on |
| Reconcile.ReportIsComplete | pkg/instance/reconcile.go:98-143 | with distinct ids each id is reported once, with all its resources, as an orphan exactly when it has no manifest |
| Reconcile.ManifestIsReported | pkg/instance/reconcile.go:115-122 | every manifest with an id has its entry |
| Reconcile.ResourceIsReported | pkg/instance/reconcile.go:101-108 | every resource with a derivable id is in exactly the entry of that id |
| Reconcile.StaleIff | pkg/instance/reconcile.go:160-164 | stale exactly when in use on paper with no backing, or stored as stale |
| Reconcile.StaleAndAllocator | pkg/instance/allocator.go:174-186 | a stale running instance keeps its ports; a stale reservation keeps them through its grace period and after that exactly while the allocator cannot listen on one of them |

## Left out

- Integers are unbounded; Go's 64-bit overflow does not occur for real ports, slots and counters.
- Error texts, logging, display, prompts and HTTP are left out; errors are constructors.
- Failures of locks, directories and file writes; reading the list of registry files is one step, as is replacing one file.
- Config paths are compared as given: filepath.Abs and filepath.Clean are not modelled.
- How the up command chooses between claiming and reusing a manifest: pkg/stack/lab.go is not part of this model.
- YAML, JSON and template text: documents are parsed trees, so quoting, tags and old boolean spellings are outside; mergo's merge is not modelled.
- How file extensions of model files are tried: a repository maps a model to its readable dependency strings or to none.
- Orchestrator.RuntimeOrchestrator.Up: an error from writing the manifest is recorded without the reason that the code appends to it.
- White space is ASCII white space, letter case folding works character by character, and a string's length counts characters where Go counts bytes.
- Diagnostic counters of the streaming state, the JSON handling inside tool summaries, a closed session and a failed write of the prompt.
- Shared `DependencyInfo` records are map values; no alias of them outside the map is modelled.
- The prompts before a release, and its refusal when no project has a configuration.
- Docker, GitHub, SCAN and backend calls are oracles; process management and health probes are not modelled.
- What a SCAN pattern selects is decided by Redis; `RedisTree.Matches` writes its glob rules down, and a complete scan returns each selected key.
- Redis writes with optimistic version tokens, and the diagnostic pattern matcher with its sort.
