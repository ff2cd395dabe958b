/** Each guard of the protocol is needed: runs that keep the others and end with a port held twice. */
module Collisions {
  import opened Common
  import opened PortPlans
  import opened Ports
  import opened Registry
  import opened Allocator
  import DefaultSlots
  import NameClash
  import opened Protocol

  const EMPTY_HOST := HostView({}, {})

  function Shell(id: string): Manifest {
    Manifest(id, Created, "/" + id, "/" + id + "/.xcli.yaml", DEFAULT_PLAN, NewDockerPlan(id, ""), map[], map[],
        map[], 0, 0, "")
  }

  function SlotZero(): PortPlan { PlanFor(DefaultSlots.DEFAULT_LAB, 0) }

  lemma SlotZeroNames()
    ensures NamesSafe(DefaultSlots.DEFAULT_LAB) && LabelsDistinct(SlotZero().networks.Keys) && PortSet(SlotZero()) != {}
  {
    DefaultSlots.OnlyMainnet();
    SafePlan(DefaultSlots.DEFAULT_LAB, 0);
    DefaultSlots.BasePorts();
    assert 8080 in PortSet(SlotZero());
  }

  const START := State(map[], map[], None, 1)

  function ClaimOf(pid: nat, id: string): Event { Lock(pid, Shell(id), DefaultSlots.DEFAULT_LAB) }

  /** Any listings will do, on a host that shows nothing. */
  ghost function AnySight(read: Files, cfg: LabConfig): Sight {
    Sight(EMPTY_HOST, DefaultSlots.NO_PROBE, DefaultSlots.NEVER,
      (id: string) =>
        if id in read && read[id].Parsed?
        then FileListing(SomeNamed(read[id].manifest.ports), SomeNamed(read[id].manifest.ports))
        else FileListing(map[], map[]),
      (t: nat) => SlotListing(SomeNamed(PlanFor(cfg, t)), SomeNamed(PlanFor(cfg, t)), SomeNamed(PlanFor(cfg, t))))
  }

  lemma AnySightIsSight(c: Claim)
    ensures IsSight(c, AnySight(c.read, c.cfg))
  {
  }

  ghost function CommitOf(read: Files): Event {
    Commit(AnySight(read, DefaultSlots.DEFAULT_LAB))
  }

  function InSlotZero(id: string, now: nat): Manifest {
    Stamped(Claimed(Shell(id), id, SlotZero()), now)
  }

  lemma EmptyRegistryGivesSlotZero()
    ensures FirstFit(DefaultSlots.DEFAULT_LAB, {}, DefaultSlots.NO_PROBE, DefaultSlots.NEVER, DEFAULT_MAX_SLOTS)
          == Found(0)
  {
    var r := DefaultSlots.Request(Shell("a"), 1, EMPTY_HOST);
    DefaultSlots.NextClaim(map[], [], r, DEFAULT_MAX_SLOTS);
    assert ActivePorts(map[], "a", 1, EMPTY_HOST) == {};
  }

  lemma FitOnUsed(c: Claim, now: nat, sight: Sight, used: set<int>)
    requires UsedPorts(c, now, sight) == used && NamesSafe(c.cfg) && IsSight(c, sight)
    ensures FitOf(c, now, sight) == FirstFit(c.cfg, used, sight.bound, sight.cancelled, DEFAULT_MAX_SLOTS)
  {
    SafeNamesFit(c.cfg, used, sight.bound, sight.cancelled, sight.slots, DEFAULT_MAX_SLOTS);
  }

  /** A claim that saw no active manifest of another instance takes slot 0. */
  lemma NothingUsedGivesSlotZero(c: Claim, now: nat)
    requires c.cfg == DefaultSlots.DEFAULT_LAB && UsedPorts(c, now, AnySight(c.read, c.cfg)) == {}
    ensures FitOf(c, now, AnySight(c.read, c.cfg)) == Found(0)
  {
    SlotZeroNames();
    AnySightIsSight(c);
    FitOnUsed(c, now, AnySight(c.read, c.cfg), {});
    EmptyRegistryGivesSlotZero();
  }

  lemma ClaimResult(s: State, c: Claim, sight: Sight, slot: nat, m: Manifest)
    requires FitOf(c, s.now, sight) == Found(slot)
    requires m == Claimed(c.request, c.request.instanceID, PlanFor(c.cfg, slot))
    requires m.instanceID != "" && m.instanceID !in s.files
    ensures CommitClaim(s, c, sight)
         == State(s.files[m.instanceID := Parsed(Stamped(m, s.now))], s.procs[c.pid := Stamped(m, s.now)], None, s.now)
  {
  }

  /** A commit that finds a slot for an instance without a file. */
  lemma CommitStep(s: State, c: Claim, sight: Sight, slot: nat, plan: PortPlan)
    requires s.claim == Some(c) && c.unread == {} && IsSight(c, sight) && FitOf(c, s.now, sight) == Found(slot)
    requires c.request.instanceID != "" && c.request.instanceID !in s.files && PlanFor(c.cfg, slot) == plan
    ensures var m := Stamped(Claimed(c.request, c.request.instanceID, plan), s.now);
      Step(s, Commit(sight)) == State(s.files[m.instanceID := Parsed(m)], s.procs[c.pid := m], None, s.now)
  {
    assert Step(s, Commit(sight)) == CommitClaim(s, c, sight);
    ClaimResult(s, c, sight, slot, Claimed(c.request, c.request.instanceID, plan));
  }

  lemma CommitTakesSlotZero(s: State, pid: nat, id: string, read: Files)
    requires s.claim == Some(Claim(pid, Shell(id), DefaultSlots.DEFAULT_LAB, {}, read))
    requires UsedPorts(s.claim.value, s.now, AnySight(read, DefaultSlots.DEFAULT_LAB)) == {}
    requires id != "" && id !in s.files
    ensures Step(s, CommitOf(read)) == State(
      s.files[id := Parsed(InSlotZero(id, s.now))], s.procs[pid := InSlotZero(id, s.now)], None, s.now)
  {
    var c := s.claim.value;
    AnySightIsSight(c);
    NothingUsedGivesSlotZero(c, s.now);
    CommitStep(s, c, AnySight(read, c.cfg), 0, SlotZero());
  }

  lemma {:induction false} RunSnoc(g: Guards, s: State, events: seq<Event>, e: Event)
    requires GuardedRun(g, s, events) && Guarded(g, Run(s, events), e)
    ensures GuardedRun(g, s, events + [e]) && Run(s, events + [e]) == Step(Run(s, events), e)
    decreases |events|
  {
    var all := events + [e];
    if events == [] {
      assert all[1..] == [];
    } else {
      assert all[1..] == events[1..] + [e];
      RunSnoc(g, Step(s, events[0]), events[1..], e);
    }
  }

  ghost predicate SharesSlotZero(files: Files) {
    && OccupiedFile(files, "a") && files["a"].manifest.ports == SlotZero()
    && OccupiedFile(files, "b") && files["b"].manifest.ports == SlotZero()
  }

  lemma SharedSlotIsNotDisjoint(files: Files)
    requires SharesSlotZero(files)
    ensures !PortsDisjoint(files)
  {
    SlotZeroNames();
    var q := Member(PortSet(SlotZero()));
    assert "a" != "b" && q in PortSet(files["a"].manifest.ports) && q in PortSet(files["b"].manifest.ports);
  }

  lemma ClaimA(g: Guards) returns (events: seq<Event>)
    ensures GuardedRun(g, START, events)
    ensures Run(START, events)
         == State(map["a" := Parsed(InSlotZero("a", 1))], map[1 := InSlotZero("a", 1)], None, 1)
  {
    events := [];
    SlotZeroNames();
    RunSnoc(g, START, events, ClaimOf(1, "a"));
    events := events + [ClaimOf(1, "a")];
    RunSnoc(g, START, events, CommitOf(map[]));
    CommitTakesSlotZero(Run(START, events), 1, "a", map[]);
    events := events + [CommitOf(map[])];
  }

  /** Instance b's claim reads the file of instance a. */
  lemma ReadForB(g: Guards, before: seq<Event>, pid: nat, a: Manifest, procs: map<nat, Manifest>, now: nat)
    returns (events: seq<Event>)
    requires GuardedRun(g, START, before)
    requires Run(START, before) == State(map["a" := Parsed(a)], procs, None, now)
    requires pid !in procs && forall p | p in procs :: procs[p].instanceID != "b"
    ensures GuardedRun(g, START, events)
    ensures Run(START, events) == State(
      map["a" := Parsed(a)], procs, Some(Claim(pid, Shell("b"), DefaultSlots.DEFAULT_LAB, {}, map["a" := Parsed(a)])),
          now)
  {
    SlotZeroNames();
    RunSnoc(g, START, before, ClaimOf(pid, "b"));
    events := before + [ClaimOf(pid, "b")];
    assert Run(START, before).files.Keys == {"a"};
    RunSnoc(g, START, events, ReadFile("a"));
    events := events + [ReadFile("a")];
    assert Run(START, events).claim.value.unread == {};
    assert Run(START, events).claim.value.read == map["a" := Parsed(a)];
  }

  /** Instance b claims beside an instance a whose file is not active any more. */
  lemma ClaimB(g: Guards, before: seq<Event>, pid: nat, a: Manifest, procs: map<nat, Manifest>, now: nat)
    returns (events: seq<Event>)
    requires GuardedRun(g, START, before)
    requires Run(START, before) == State(map["a" := Parsed(a)], procs, None, now)
    requires a.instanceID == "a" && a.ports == SlotZero()
    requires !IsActive(a, now, EMPTY_HOST) && (g.noLapse ==> a.status != Reserved)
    requires pid !in procs && forall p | p in procs :: procs[p].instanceID != "b"
    ensures GuardedRun(g, START, events)
    ensures Run(START, events)
         == State(map["a" := Parsed(a), "b" := Parsed(InSlotZero("b", now))], procs[pid := InSlotZero("b", now)],
             None, now)
  {
    var files: Files := map["a" := Parsed(a)];
    events := ReadForB(g, before, pid, a, procs, now);
    var s := Run(START, events);
    NothingActive(s.claim.value, a, now);
    RunSnoc(g, START, events, CommitOf(files));
    CommitTakesSlotZero(s, pid, "b", files);
    events := events + [CommitOf(files)];
  }

  lemma NothingActive(c: Claim, a: Manifest, now: nat)
    requires c.read == map["a" := Parsed(a)] && a.ports == SlotZero() && !IsActive(a, now, EMPTY_HOST)
    ensures UsedPorts(c, now, AnySight(c.read, c.cfg)) == {}
  {
    SlotZeroNames();
    AnySightIsSight(c);
    SafeManifestListed(a, c.request.instanceID, now, EMPTY_HOST, AnySight(c.read, c.cfg).stored("a"));
  }

  /** Time passes for the reservation of instance a. */
  lemma LapseA(g: Guards) returns (events: seq<Event>)
    ensures GuardedRun(g, START, events)
    ensures var a := InSlotZero("a", 1);
      Run(START, events) == State(map["a" := Parsed(a)], map[1 := a], None, GRACE_PERIOD + 2)
  {
    events := ClaimA(g);
    RunSnoc(g, START, events, Tick(GRACE_PERIOD + 1));
    events := events + [Tick(GRACE_PERIOD + 1)];
  }

  /** A reservation that outlives its grace period loses its ports to the next claim. */
  lemma LapsedReservationIsReassigned() returns (events: seq<Event>)
    ensures GuardedRun(ALL.(noLapse := false), START, events) && !PortsDisjoint(Run(START, events).files)
  {
    var g := ALL.(noLapse := false);
    var a := InSlotZero("a", 1);
    events := LapseA(g);
    events := ClaimB(g, events, 2, a, map[1 := a], GRACE_PERIOD + 2);
    SharedSlotIsNotDisjoint(Run(START, events).files);
  }

  function StoppedA(): Manifest {
    InSlotZero("a", 1).(status := Status.Stopped, pids := map[])
  }

  lemma StopA(g: Guards, before: seq<Event>, pid: nat, procs: map<nat, Manifest>) returns (events: seq<Event>)
    requires GuardedRun(g, START, before)
    requires Run(START, before) == State(map["a" := Parsed(InSlotZero("a", 1))], procs, None, 1)
    requires pid in procs && procs[pid] == InSlotZero("a", 1)
    ensures GuardedRun(g, START, events)
    ensures Run(START, events) == State(map["a" := Parsed(StoppedA())], procs[pid := StoppedA()], None, 1)
  {
    RunSnoc(g, START, before, MarkStopped(pid));
    events := before + [MarkStopped(pid)];
  }

  /** A process takes up the file of instance a. */
  lemma LoadA(g: Guards, before: seq<Event>, pid: nat, a: Manifest, files: Files, procs: map<nat, Manifest>)
    returns (events: seq<Event>)
    requires GuardedRun(g, START, before) && Run(START, before) == State(files, procs, None, 1)
    requires "a" in files && files["a"] == Parsed(a) && pid !in procs
    requires g.oneProcess ==> forall p | p in procs :: procs[p].instanceID != a.instanceID
    ensures GuardedRun(g, START, events) && Run(START, events) == State(files, procs[pid := a], None, 1)
  {
    RunSnoc(g, START, before, Load(pid, "a"));
    events := before + [Load(pid, "a")];
  }

  /** A process whose copy holds slot 0 finalizes it while instance b holds slot 0. */
  lemma FinalizeCollides(g: Guards, before: seq<Event>, pid: nat, m: Manifest, procs: map<nat, Manifest>)
    returns (events: seq<Event>)
    requires GuardedRun(g, START, before)
    requires Run(START, before)
          == State(map["a" := Parsed(StoppedA()), "b" := Parsed(InSlotZero("b", 1))], procs, None, 1)
    requires pid in procs && procs[pid] == m && m.instanceID == "a" && m.ports == SlotZero()
    requires (g.finalizesClaimed ==> Occupies(m)) && m.configPath == StoppedA().configPath
    ensures GuardedRun(g, START, events) && !PortsDisjoint(Run(START, events).files)
  {
    var done := Finalize(pid, map[], map[], map[], "");
    RunSnoc(g, START, before, done);
    events := before + [done];
    SharedSlotIsNotDisjoint(Run(START, events).files);
  }

  /** Finalizing a persisted stopped manifest, as the dashboard can, takes back ports claimed since. */
  lemma FinalizingStoppedManifestCollides() returns (events: seq<Event>)
    ensures GuardedRun(ALL.(finalizesClaimed := false), START, events) && !PortsDisjoint(Run(START, events).files)
  {
    var g := ALL.(finalizesClaimed := false);
    var a, b := StoppedA(), InSlotZero("b", 1);
    events := ClaimA(g);
    events := StopA(g, events, 1, map[1 := InSlotZero("a", 1)]);
    RunSnoc(g, START, events, Exit(1));
    events := events + [Exit(1)];
    events := ClaimB(g, events, 2, a, map[], 1);
    var procs: map<nat, Manifest> := map[2 := b];
    events := LoadA(g, events, 3, a, map["a" := Parsed(a), "b" := Parsed(b)], procs);
    events := FinalizeCollides(g, events, 3, a, procs[3 := a]);
  }

  /** Two processes of one instance: one stops it and the other, still booting, finalizes its own copy. */
  lemma SecondProcessCollides() returns (events: seq<Event>)
    ensures GuardedRun(ALL.(oneProcess := false), START, events) && !PortsDisjoint(Run(START, events).files)
  {
    var g := ALL.(oneProcess := false);
    var a, b := InSlotZero("a", 1), InSlotZero("b", 1);
    events := ClaimA(g);
    var one: map<nat, Manifest> := map[1 := a];
    var two := one[2 := a];
    var three := two[2 := StoppedA()];
    events := LoadA(g, events, 2, a, map["a" := Parsed(a)], one);
    events := StopA(g, events, 2, two);
    events := ClaimB(g, events, 3, StoppedA(), three, 1);
    events := FinalizeCollides(g, events, 1, a, three[3 := b]);
  }

  // ---- The guard on network names ----

  function ClashingA(): Manifest {
    Stamped(Claimed(Shell("a"), "a", NameClash.CLASHING_PLAN), 1)
  }

  function MovedB(): Manifest {
    Stamped(Claimed(Shell("b"), "b", PlanFor(NameClash.MOVED, 1)), 1)
  }

  lemma ClashingTakesSlotZero(c: Claim, now: nat)
    requires c.cfg == NameClash.CLASHING && c.read == map[]
    ensures FitOf(c, now, AnySight(map[], c.cfg)) == Found(0) && PlanFor(c.cfg, 0) == NameClash.CLASHING_PLAN
  {
    var sight := AnySight(map[], c.cfg);
    NameClash.ClashingPlan();
    NameClash.ClashingPorts(NameClash.CLASHING_PLAN);
    assert UsedPorts(c, now, sight) == {};
    ListedBelongs(NameClash.CLASHING_PLAN, sight.slots(0).duplicates);
    var judge := JudgingBy({}, sight.bound, sight.cancelled, sight.slots);
    assert judge(0) == Take;
    SearchEndsAt(judge, 0, DEFAULT_MAX_SLOTS, 0);
  }

  lemma RunCommit(
      g: Guards, before: seq<Event>, s: State, c: Claim, sight: Sight, slot: nat, plan: PortPlan)
    returns (events: seq<Event>)
    requires GuardedRun(g, START, before) && Run(START, before) == s
    requires s.claim == Some(c) && c.unread == {} && IsSight(c, sight) && FitOf(c, s.now, sight) == Found(slot)
    requires c.request.instanceID != "" && c.request.instanceID !in s.files && PlanFor(c.cfg, slot) == plan
    requires SeesNoLapsedReservation(s, Commit(sight))
    ensures GuardedRun(g, START, events)
    ensures var m := Stamped(Claimed(c.request, c.request.instanceID, plan), s.now);
      Run(START, events) == State(s.files[m.instanceID := Parsed(m)], s.procs[c.pid := m], None, s.now)
  {
    CommitStep(s, c, sight, slot, plan);
    RunSnoc(g, START, before, Commit(sight));
    events := before + [Commit(sight)];
  }

  lemma FirstLock(g: Guards, cfg: LabConfig) returns (events: seq<Event>)
    requires g.safeNames ==> NamesSafe(cfg)
    ensures GuardedRun(g, START, events)
    ensures Run(START, events) == State(map[], map[], Some(Claim(1, Shell("a"), cfg, {}, map[])), 1)
  {
    var lock := Lock(1, Shell("a"), cfg);
    var files: Files := map[];
    assert files.Keys == {};
    RunSnoc(g, START, [], lock);
    events := [] + [lock];
  }

  /** The first instance claims an empty registry for the lab whose networks clash. */
  lemma ClaimFirst(g: Guards) returns (events: seq<Event>)
    requires !g.safeNames
    ensures GuardedRun(g, START, events)
    ensures Run(START, events) == State(map["a" := Parsed(ClashingA())], map[1 := ClashingA()], None, 1)
  {
    var cfg := NameClash.CLASHING;
    var c := Claim(1, Shell("a"), cfg, {}, map[]);
    events := FirstLock(g, cfg);
    AnySightIsSight(c);
    ClashingTakesSlotZero(c, 1);
    events := RunCommit(g, events, State(map[], map[], Some(c), 1), c, AnySight(map[], cfg), 0,
        NameClash.CLASHING_PLAN);
  }

  /** The sight that goes through network x before network api-x when it lists the ports of instance a. */
  ghost function HidingSight(named: map<string, int>): Sight {
    AnySight(map[], NameClash.MOVED).(stored := (id: string) => FileListing(named, named))
  }

  lemma HiddenUsed(c: Claim, named: map<string, int>)
    requires c.read == map["a" := Parsed(ClashingA())] && c.request.instanceID == "b"
    ensures ActiveBy(ClashingA(), 1, EMPTY_HOST, named) && UsedPorts(c, 1, HidingSight(named)) == Positive(named)
  {
    var sight := HidingSight(named);
    assert ListedBy(ClashingA(), "b", 1, EMPTY_HOST, sight.stored("a")) == Positive(named);
  }

  lemma HidingIsSight(c: Claim, named: map<string, int>)
    requires c.read == map["a" := Parsed(ClashingA())] && c.cfg == NameClash.MOVED
    requires IsNamedPorts(NameClash.CLASHING_PLAN, named)
    ensures IsSight(c, HidingSight(named))
  {
    AnySightIsSight(c.(read := map[]));
  }

  lemma MovedTakesHiddenPort(c: Claim, named: map<string, int>)
    requires c == Claim(2, Shell("b"), NameClash.MOVED, {}, map["a" := Parsed(ClashingA())])
    requires IsNamedPorts(NameClash.CLASHING_PLAN, named) && 8091 !in Positive(named) && 5173 in Positive(named)
    ensures FitOf(c, 1, HidingSight(named)) == Found(1)
  {
    HiddenUsed(c, named);
    HidingIsSight(c, named);
    NameClash.MovedIsSafe();
    FitOnUsed(c, 1, HidingSight(named), Positive(named));
    NameClash.ListedAmong(named);
    NameClash.MovedTakesSlotOne(Positive(named), DEFAULT_MAX_SLOTS);
  }

  /** Instance b locks the registry and reads the one file in it. */
  lemma ReadBesideA(g: Guards, before: seq<Event>) returns (events: seq<Event>)
    requires !g.safeNames && GuardedRun(g, START, before)
    requires Run(START, before) == State(map["a" := Parsed(ClashingA())], map[1 := ClashingA()], None, 1)
    ensures GuardedRun(g, START, events)
    ensures Run(START, events) == State(
      map["a" := Parsed(ClashingA())], map[1 := ClashingA()],
      Some(Claim(2, Shell("b"), NameClash.MOVED, {}, map["a" := Parsed(ClashingA())])), 1)
  {
    var lock, read := Lock(2, Shell("b"), NameClash.MOVED), ReadFile("a");
    var files: Files := map["a" := Parsed(ClashingA())];
    assert files.Keys == {"a"};
    RunSnoc(g, START, before, lock);
    events := before + [lock];
    assert Run(START, events).claim == Some(Claim(2, Shell("b"), NameClash.MOVED, {"a"}, map[]));
    RunSnoc(g, START, events, read);
    events := events + [read];
    assert {"a"} - {"a"} == {};
  }

  /** Instance a's networks clash; the listing that instance b's claim makes of them hides a port, and b takes it. */
  lemma ClashingNamesCollide() returns (events: seq<Event>)
    ensures GuardedRun(ALL.(safeNames := false), START, events) && !PortsDisjoint(Run(START, events).files)
  {
    var g := ALL.(safeNames := false);
    events := ClaimFirst(g);
    events := ReadBesideA(g, events);
    events := ClaimHidden(g, events);
    BothHold8091(Run(START, events).files);
  }

  lemma ClaimHidden(g: Guards, before: seq<Event>) returns (events: seq<Event>)
    requires GuardedRun(g, START, before)
    requires Run(START, before) == State(
      map["a" := Parsed(ClashingA())], map[1 := ClashingA()],
      Some(Claim(2, Shell("b"), NameClash.MOVED, {}, map["a" := Parsed(ClashingA())])), 1)
    ensures GuardedRun(g, START, events)
    ensures Run(START, events).files == map["a" := Parsed(ClashingA()), "b" := Parsed(MovedB())]
  {
    var s := Run(START, before);
    var c := s.claim.value;
    var named := NameClash.HiddenPort();
    MovedTakesHiddenPort(c, named);
    HiddenUsed(c, named);
    HidingIsSight(c, named);
    SeesActive(s, c, HidingSight(named));
    events := RunCommit(g, before, s, c, HidingSight(named), 1, PlanFor(NameClash.MOVED, 1));
  }

  lemma SeesActive(s: State, c: Claim, sight: Sight)
    requires s.claim == Some(c) && c.read == map["a" := Parsed(ClashingA())]
    requires ActiveBy(ClashingA(), s.now, sight.host, sight.stored("a").backing)
    ensures SeesNoLapsedReservation(s, Commit(sight))
  {
  }

  lemma BothHold8091(files: Files)
    requires files == map["a" := Parsed(ClashingA()), "b" := Parsed(MovedB())]
    ensures !PortsDisjoint(files)
  {
    NameClash.ClashingPorts(NameClash.CLASHING_PLAN);
    NameClash.MovedPorts(1);
    assert OccupiedFile(files, "a") && OccupiedFile(files, "b") && "a" != "b";
    assert 8091 in PortSet(files["a"].manifest.ports) && 8091 in PortSet(files["b"].manifest.ports);
  }
}
