/**
 * First-fit allocation of port slots (pkg/instance/allocator.go).
 *
 * What the host shows is an oracle: `HostView` when manifests are judged, `bound(slot)` when
 * the ports of a slot are probed, `cancelled(slot)` when the context is checked.
 */
module Allocator {
  import opened Common
  import opened PortPlans
  import opened Ports
  import opened Registry

  const DEFAULT_MAX_SLOTS: nat := 100
  const GRACE_PERIOD: nat := 600  // ten minutes, in seconds

  datatype HostView = HostView(alivePIDs: set<int>, boundPorts: set<int>)

  datatype AllocateError =
    | MissingInstanceID | MissingLabConfig | RegistryUnreadable
    | Cancelled | BadPlan | NoSlot | MissingManifest | SaveFailed(reason: RegistryError)

  // ---- Which ports are taken ----

  /** Some process recorded for the instance still lives. */
  ghost predicate HasLiveProcess(m: Manifest, host: HostView) {
    exists name :: name in m.pids && m.pids[name] > 0 && m.pids[name] in host.alivePIDs
  }

  /** A live process or a bound port still stands behind the reservation. */
  ghost predicate HasBacking(m: Manifest, host: HostView) {
    HasLiveProcess(m, host) || PortSet(m.ports) * host.boundPorts != {}
  }

  ghost predicate IsActive(m: Manifest, now: int, host: HostView) {
    match m.status
    case Running => true
    case Reserved => HasBacking(m, host) || (m.updatedAt != 0 && now - m.updatedAt <= GRACE_PERIOD)
    case _ => false
  }

  /** The ports of every active manifest of another instance. */
  ghost function ActivePorts(files: Files, self: string, now: int, host: HostView): set<int> {
    set id, q | id in files && files[id].Parsed? && files[id].manifest.instanceID != self
                && IsActive(files[id].manifest, now, host) && q in PortSet(files[id].manifest.ports) :: q
  }

  // ---- The search ----

  datatype Verdict = Take | Pass | Duplicate | Interrupt

  ghost predicate Acceptable(cfg: LabConfig, used: set<int>, bound: nat -> set<int>, slot: nat) {
    PortSet(PlanFor(cfg, slot)) * (used + bound(slot)) == {}
  }

  ghost function Judge(
      cfg: LabConfig, used: set<int>, bound: nat -> set<int>, cancelled: nat -> bool, slot: nat): Verdict
  {
    if cancelled(slot) then Interrupt
    else if HasDuplicates(PlanFor(cfg, slot)) then Duplicate
    else if Acceptable(cfg, used, bound, slot) then Take
    else Pass
  }

  ghost function Judging(
      cfg: LabConfig, used: set<int>, bound: nat -> set<int>, cancelled: nat -> bool): nat -> Verdict
  {
    (slot: nat) => Judge(cfg, used, bound, cancelled, slot)
  }

  /** The first slot from `slot` on that is not passed over, or `limit`. */
  ghost function Search(judge: nat -> Verdict, slot: nat, limit: nat): (r: nat)
    requires slot <= limit
    ensures slot <= r <= limit
    ensures forall t: nat | slot <= t < r :: judge(t) == Pass
    ensures r < limit ==> judge(r) != Pass
    decreases limit - slot
  {
    if slot == limit || judge(slot) != Pass then slot else Search(judge, slot + 1, limit)
  }

  lemma {:induction false} SearchEndsAt(judge: nat -> Verdict, slot: nat, limit: nat, end: nat)
    requires slot <= end <= limit
    requires forall t: nat | slot <= t < end :: judge(t) == Pass
    requires end < limit ==> judge(end) != Pass
    ensures Search(judge, slot, limit) == end
    decreases end - slot
  {
    if slot == end {
    } else {
      SearchEndsAt(judge, slot + 1, limit, end);
    }
  }

  datatype Fit = Found(slot: nat) | Duplicated | Interrupted | Exhausted

  ghost function FitAt(judge: nat -> Verdict, slot: nat, limit: nat): Fit {
    if slot >= limit then Exhausted
    else match judge(slot) {
      case Interrupt => Interrupted
      case Duplicate => Duplicated
      case _ => Found(slot)
    }
  }

  /** How the slot loop ends. */
  ghost function FirstFit(
      cfg: LabConfig, used: set<int>, bound: nat -> set<int>, cancelled: nat -> bool, limit: nat): Fit {
    var judge := Judging(cfg, used, bound, cancelled);
    FitAt(judge, Search(judge, 0, limit), limit)
  }

  /** The plan found is the one of the least acceptable slot. */
  lemma FirstFitIsLeast(
      cfg: LabConfig, used: set<int>, bound: nat -> set<int>, cancelled: nat -> bool, limit: nat)
    ensures var fit := FirstFit(cfg, used, bound, cancelled, limit);
      && (fit.Found? ==>
           fit.slot < limit && Acceptable(cfg, used, bound, fit.slot) && !HasDuplicates(PlanFor(cfg, fit.slot))
                         && forall t: nat | t < fit.slot :: !Acceptable(cfg, used, bound, t))
      && (fit.Exhausted? ==> forall t: nat | t < limit :: !Acceptable(cfg, used, bound, t))
      && ((forall t: nat | t < limit :: !cancelled(t) && !HasDuplicates(PlanFor(cfg, t))) ==>
            if exists t: nat :: t < limit && Acceptable(cfg, used, bound, t) then fit.Found? else fit.Exhausted?)
  {
    var judge := Judging(cfg, used, bound, cancelled);
    var s := Search(judge, 0, limit);
    forall t: nat | t < s ensures !Acceptable(cfg, used, bound, t) {
      assert judge(t) == Pass;
    }
  }

  lemma DisjointFromPart(plan: set<int>, used: set<int>, ports: set<int>)
    requires plan * used == {} && ports <= used
    ensures plan !! ports
  {
    forall q | q in plan ensures q !in ports {
      assert q !in plan * used;
    }
  }

  /** The plan found shares no port with those in use. */
  lemma FoundAvoidsUsed(
      cfg: LabConfig, used: set<int>, bound: nat -> set<int>, cancelled: nat -> bool, limit: nat, ports: set<int>)
    requires ports <= used
    requires FirstFit(cfg, used, bound, cancelled, limit).Found?
    ensures PortSet(PlanFor(cfg, FirstFit(cfg, used, bound, cancelled, limit).slot)) !! ports
  {
    FirstFitIsLeast(cfg, used, bound, cancelled, limit);
    var slot := FirstFit(cfg, used, bound, cancelled, limit).slot;
    assert Acceptable(cfg, used, bound, slot);
    DisjointFromPart(PortSet(PlanFor(cfg, slot)), used + bound(slot), ports);
  }

  /** With positive base ports a plan can only be rejected for duplicates at the first slot. */
  lemma DuplicatesFailAtOnce(
      cfg: LabConfig, used: set<int>, bound: nat -> set<int>, cancelled: nat -> bool, limit: nat)
    requires BasePortsPositive(cfg)
    requires FirstFit(cfg, used, bound, cancelled, limit).Duplicated?
    ensures HasDuplicates(PlanFor(cfg, 0))
  {
    var s := Search(Judging(cfg, used, bound, cancelled), 0, limit);
    DuplicatesAtEverySlotOrNone(cfg, s);
  }

  // ---- Running out of slots needs many occupied ports ----

  function Residue(q: int): int { q % PORT_STRIDE }

  /** The slot-0 ports that can ever land on port `q`. */
  ghost function SameResidue(base: set<int>, q: int): set<int> {
    set p | p in base && Residue(p) == Residue(q)
  }

  /** The slots below `limit` at which some shifted base port is `q`. */
  ghost function SlotsHitting(base: set<int>, q: int, limit: nat): set<int> {
    set s | s in Below(limit) && q - s * PORT_STRIDE in base
  }

  ghost function SlotsHittingAny(base: set<int>, occupied: set<int>, limit: nat): set<int> {
    set s | s in Below(limit) && Shifted(base, s) * occupied != {}
  }

  lemma ShiftKeepsResidue(q: int, s: int)
    ensures Residue(q - s * PORT_STRIDE) == Residue(q)
  {
    var k := q / PORT_STRIDE;
    assert q == k * PORT_STRIDE + Residue(q);
    assert q - s * PORT_STRIDE == (k - s) * PORT_STRIDE + Residue(q);
  }

  /** One occupied port blocks at most as many slots as base ports share its residue. */
  lemma {:induction false} OnePortBlocks(q: int, slots: set<int>, ports: set<int>)
    requires forall s | s in slots :: q - s * PORT_STRIDE in ports
    ensures |slots| <= |ports|
  {
    if slots == {} {
    } else {
      var s := Member(slots);
      var p := q - s * PORT_STRIDE;
      forall t | t in slots - {s} ensures q - t * PORT_STRIDE in ports - {p} {
        assert t != s;
      }
      OnePortBlocks(q, slots - {s}, ports - {p});
    }
  }

  lemma {:induction false} OccupiedPortsBlock(base: set<int>, occupied: set<int>, limit: nat, m: nat)
    requires forall q :: |SameResidue(base, q)| <= m
    ensures |SlotsHittingAny(base, occupied, limit)| <= m * |occupied|
  {
    if occupied == {} {
      assert SlotsHittingAny(base, occupied, limit) == {};
    } else {
      var q := Member(occupied);
      var rest := occupied - {q};
      OccupiedPortsBlock(base, rest, limit, m);
      var here := SlotsHitting(base, q, limit);
      PortHits(base, q, limit);
      assert |here| <= |SameResidue(base, q)| <= m;
      assert |occupied| == |rest| + 1;
      HitsSplit(base, occupied, q, limit);
      SubsetCardinality(SlotsHittingAny(base, occupied, limit), here + SlotsHittingAny(base, rest, limit));
      OneMore(m, |rest|);
    }
  }

  lemma OneMore(m: nat, n: nat)
    ensures m * (n + 1) == m * n + m
  {
  }

  lemma PortHits(base: set<int>, q: int, limit: nat)
    ensures |SlotsHitting(base, q, limit)| <= |SameResidue(base, q)|
  {
    forall s | s in SlotsHitting(base, q, limit) ensures q - s * PORT_STRIDE in SameResidue(base, q) {
      ShiftKeepsResidue(q, s);
    }
    OnePortBlocks(q, SlotsHitting(base, q, limit), SameResidue(base, q));
  }

  lemma HitsSplit(base: set<int>, occupied: set<int>, q: int, limit: nat)
    requires q in occupied
    ensures SlotsHittingAny(base, occupied, limit)
         <= SlotsHitting(base, q, limit) + SlotsHittingAny(base, occupied - {q}, limit)
  {
    forall s | s in SlotsHittingAny(base, occupied, limit)
      ensures s in SlotsHitting(base, q, limit) + SlotsHittingAny(base, occupied - {q}, limit)
    {
      var hit := Member(Shifted(base, s) * occupied);
      if hit != q {
        assert hit in Shifted(base, s) * (occupied - {q});
      }
    }
  }

  /**
   * Pigeonhole: the search runs out of slots only if the occupied ports, each counted once for every
   * plan port of its residue, are at least as many as the slots.
   */
  lemma ExhaustedNeedsOccupiedPorts(
      cfg: LabConfig, used: set<int>, bound: nat -> set<int>, cancelled: nat -> bool, limit: nat,
      occupied: set<int>, m: nat)
    requires BasePortsPositive(cfg)
    requires forall q :: |SameResidue(PortSet(PlanFor(cfg, 0)), q)| <= m
    requires forall slot: nat | slot < limit :: used + bound(slot) <= occupied
    requires FirstFit(cfg, used, bound, cancelled, limit).Exhausted?
    ensures limit <= m * |occupied|
  {
    var base := PortSet(PlanFor(cfg, 0));
    FirstFitIsLeast(cfg, used, bound, cancelled, limit);
    forall s | s in Below(limit) ensures s in SlotsHittingAny(base, occupied, limit) {
      BlockedSlotIsHit(cfg, used, bound, occupied, s);
    }
    SubsetCardinality(Below(limit), SlotsHittingAny(base, occupied, limit));
    OccupiedPortsBlock(base, occupied, limit, m);
  }

  lemma BlockedSlotIsHit(cfg: LabConfig, used: set<int>, bound: nat -> set<int>, occupied: set<int>, slot: nat)
    requires BasePortsPositive(cfg)
    requires used + bound(slot) <= occupied && !Acceptable(cfg, used, bound, slot)
    ensures Shifted(PortSet(PlanFor(cfg, 0)), slot) * occupied != {}
  {
    PortSetShiftAt(cfg, slot);
    var q := Member(PortSet(PlanFor(cfg, slot)) * (used + bound(slot)));
    assert q in Shifted(PortSet(PlanFor(cfg, 0)), slot) * occupied;
  }

  // ---- What the code sees: ports by name, as one listing of a plan shows them ----

  ghost predicate BackedBy(m: Manifest, host: HostView, named: map<string, int>) {
    HasLiveProcess(m, host) || Positive(named) * host.boundPorts != {}
  }

  ghost predicate ActiveBy(m: Manifest, now: int, host: HostView, named: map<string, int>) {
    match m.status
    case Running => true
    case Reserved => BackedBy(m, host, named) || (m.updatedAt != 0 && now - m.updatedAt <= GRACE_PERIOD)
    case _ => false
  }

  /** A stored plan is listed once to judge its reservation and once to collect its ports. */
  datatype FileListing = FileListing(backing: map<string, int>, active: map<string, int>)

  ghost predicate IsFileListing(m: Manifest, l: FileListing) {
    IsNamedPorts(m.ports, l.backing) && IsNamedPorts(m.ports, l.active)
  }

  ghost function ListedBy(m: Manifest, self: string, now: int, host: HostView, l: FileListing): set<int> {
    if m.instanceID != self && ActiveBy(m, now, host, l.backing) then Positive(l.active) else {}
  }

  /** The ports collected from the manifests, one listing for each. */
  ghost function ActiveListed(
      manifests: seq<Manifest>, self: string, now: int, host: HostView, stored: seq<FileListing>): set<int>
    requires |stored| == |manifests|
  {
    set i, q | 0 <= i < |manifests| && q in ListedBy(manifests[i], self, now, host, stored[i]) :: q
  }

  /** The same, when the manifests are known by their files. */
  ghost function ActivePortsBy(
      files: Files, self: string, now: int, host: HostView, stored: string -> FileListing): set<int>
  {
    set id, q | id in files && files[id].Parsed? && q in ListedBy(files[id].manifest, self, now, host, stored(id)) :: q
  }

  ghost predicate AreFileListings(files: Files, stored: string -> FileListing) {
    forall id | id in files && files[id].Parsed? :: IsFileListing(files[id].manifest, stored(id))
  }

  /** A slot's plan is listed once to find duplicates, once against the registry and once against the host. */
  datatype SlotListing = SlotListing(duplicates: map<string, int>, registry: map<string, int>, probe: map<string, int>)

  ghost predicate IsSlotListing(cfg: LabConfig, slot: nat, l: SlotListing) {
    var plan := PlanFor(cfg, slot);
    IsNamedPorts(plan, l.duplicates) && IsNamedPorts(plan, l.registry) && IsNamedPorts(plan, l.probe)
  }

  ghost function JudgeBy(
      used: set<int>, bound: nat -> set<int>, cancelled: nat -> bool, slot: nat, l: SlotListing): Verdict {
    if cancelled(slot) then Interrupt
    else if Repeats(l.duplicates) then Duplicate
    else if Positive(l.registry) * used == {} && Positive(l.probe) * bound(slot) == {} then Take
    else Pass
  }

  ghost function JudgingBy(
      used: set<int>, bound: nat -> set<int>, cancelled: nat -> bool, slots: nat -> SlotListing): nat -> Verdict {
    (slot: nat) => JudgeBy(used, bound, cancelled, slot, slots(slot))
  }

  /** How the slot loop ends on what it sees. */
  ghost function FirstFitBy(
      used: set<int>, bound: nat -> set<int>, cancelled: nat -> bool, slots: nat -> SlotListing, limit: nat): Fit {
    var judge := JudgingBy(used, bound, cancelled, slots);
    FitAt(judge, Search(judge, 0, limit), limit)
  }

  /** With network names that do not clash, what the loop sees of a slot is the plan itself. */
  lemma SafeNamesJudge(
      cfg: LabConfig, used: set<int>, bound: nat -> set<int>, cancelled: nat -> bool, slot: nat, l: SlotListing)
    requires NamesSafe(cfg) && IsSlotListing(cfg, slot, l)
    ensures JudgeBy(used, bound, cancelled, slot, l) == Judge(cfg, used, bound, cancelled, slot)
  {
    RefusedIffDuplicates(cfg, slot, l.duplicates);
    RefusedIffDuplicates(cfg, slot, l.registry);
    RefusedIffDuplicates(cfg, slot, l.probe);
    AvoidsBoth(PortSet(PlanFor(cfg, slot)), used, bound(slot));
  }

  lemma AvoidsBoth(plan: set<int>, a: set<int>, b: set<int>)
    ensures plan * (a + b) == {} <==> plan * a == {} && plan * b == {}
  {
    assert plan * (a + b) == plan * a + plan * b;
  }

  /** Then the search ends as on the plans, so the results about FirstFit are about the code. */
  lemma SafeNamesFit(
      cfg: LabConfig, used: set<int>, bound: nat -> set<int>, cancelled: nat -> bool, slots: nat -> SlotListing,
      limit: nat)
    requires NamesSafe(cfg) && forall slot: nat | slot < limit :: IsSlotListing(cfg, slot, slots(slot))
    ensures FirstFitBy(used, bound, cancelled, slots, limit) == FirstFit(cfg, used, bound, cancelled, limit)
  {
    var judge, judgeBy := Judging(cfg, used, bound, cancelled), JudgingBy(used, bound, cancelled, slots);
    forall slot: nat | slot < limit ensures judgeBy(slot) == judge(slot) {
      SafeNamesJudge(cfg, used, bound, cancelled, slot, slots(slot));
    }
    SearchEndsAt(judge, 0, limit, Search(judgeBy, 0, limit));
  }

  /** A stored plan whose names are told apart is seen as it is. */
  lemma SafeManifestListed(m: Manifest, self: string, now: int, host: HostView, l: FileListing)
    requires LabelsDistinct(m.ports.networks.Keys) && IsFileListing(m, l)
    ensures ListedBy(m, self, now, host, l) == if m.instanceID != self && IsActive(m, now, host) then PortSet(m.ports)
      else {}
  {
    SafeListing(m.ports, l.backing);
    SafeListing(m.ports, l.active);
  }

  lemma SafeNamesActive(files: Files, self: string, now: int, host: HostView, stored: string -> FileListing)
    requires AreFileListings(files, stored)
    requires forall id | id in files && files[id].Parsed? :: LabelsDistinct(files[id].manifest.ports.networks.Keys)
    ensures ActivePortsBy(files, self, now, host, stored) == ActivePorts(files, self, now, host)
  {
    forall q ensures q in ActivePortsBy(files, self, now, host, stored) <==> q in ActivePorts(files, self, now, host) {
      forall id | id in files && files[id].Parsed? {
        SafeManifestListed(files[id].manifest, self, now, host, stored(id));
      }
    }
  }

  // ---- The allocator itself ----

  method ListPorts(p: PortPlan) returns (ports: set<int>, ghost named: map<string, int>)
    ensures IsNamedPorts(p, named) && ports == Positive(named)
    ensures LabelsDistinct(p.networks.Keys) ==> ports == PortSet(p)
  {
    var listed;
    listed, named := AllPorts(p);
    if LabelsDistinct(p.networks.Keys) { SafeListing(p, named); }
    ports := Elements(listed);
  }

  method ReservationHasBacking(m: Manifest, host: HostView) returns (backed: bool, ghost named: map<string, int>)
    ensures IsNamedPorts(m.ports, named) && backed == BackedBy(m, host, named)
    ensures LabelsDistinct(m.ports.networks.Keys) ==> backed == HasBacking(m, host)
  {
    named := SomeNamed(m.ports);
    var remaining := m.pids.Keys;
    while remaining != {}
      invariant forall name | name in m.pids && name !in remaining ::
        !(m.pids[name] > 0 && m.pids[name] in host.alivePIDs)
      decreases remaining
    {
      var name := AnyKey(remaining);
      remaining := remaining - {name};
      if name in m.pids && m.pids[name] > 0 && m.pids[name] in host.alivePIDs { return true, named; }
    }
    var ports;
    ports, named := ListPorts(m.ports);
    backed := ports * host.boundPorts != {};
  }

  /** A running instance is active, and a reservation while it is backed or written in the last ten minutes. */
  method IsActiveManifest(m: Manifest, now: int, host: HostView) returns (active: bool, ghost named: map<string, int>)
    ensures IsNamedPorts(m.ports, named) && active == ActiveBy(m, now, host, named)
    ensures LabelsDistinct(m.ports.networks.Keys) ==> active == IsActive(m, now, host)
    ensures m.status == Running ==> active
    ensures m.status != Running && m.status != Reserved ==> !active
    ensures m.status == Reserved && HasLiveProcess(m, host) ==> active
    ensures m.status == Reserved && m.updatedAt != 0 && now - m.updatedAt <= 600 ==> active
    ensures m.status == Reserved && active && (m.updatedAt == 0 || now - m.updatedAt > 600) ==>
      HasLiveProcess(m, host) || exists key :: key in named && named[key] > 0 && named[key] in host.boundPorts
  {
    named := SomeNamed(m.ports);
    match m.status {
      case Running => return true, named;
      case Reserved =>
        var backed;
        backed, named := ReservationHasBacking(m, host);
        if backed { return true, named; }
        if m.updatedAt == 0 { return false, named; }
        return now - m.updatedAt <= GRACE_PERIOD, named;
      case _ => return false, named;
    }
  }

  lemma ActiveListedSnoc(
      manifests: seq<Manifest>, stored: seq<FileListing>, m: Manifest, l: FileListing, self: string, now: int,
      host: HostView)
    requires |stored| == |manifests|
    ensures ActiveListed(manifests + [m], self, now, host, stored + [l])
         == ActiveListed(manifests, self, now, host, stored) + ListedBy(m, self, now, host, l)
  {
    var all, listings := manifests + [m], stored + [l];
    assert forall i | 0 <= i < |manifests| :: all[i] == manifests[i] && listings[i] == stored[i];
    forall q | q in ListedBy(m, self, now, host, l) ensures q in ActiveListed(all, self, now, host, listings) {
      assert q in ListedBy(all[|manifests|], self, now, host, listings[|manifests|]);
    }
  }

  /** One listing for each manifest. */
  ghost predicate AreListings(manifests: seq<Manifest>, stored: seq<FileListing>) {
    |stored| == |manifests| && forall i | 0 <= i < |manifests| :: IsFileListing(manifests[i], stored[i])
  }

  lemma AreListingsSnoc(manifests: seq<Manifest>, stored: seq<FileListing>, m: Manifest, l: FileListing)
    requires AreListings(manifests, stored) && IsFileListing(m, l)
    ensures AreListings(manifests + [m], stored + [l])
  {
  }

  /** Where a manifest stands in the list. */
  ghost function IndexOf(manifests: seq<Manifest>, id: string): (i: nat)
    requires exists k: nat :: k < |manifests| && manifests[k].instanceID == id
    ensures i < |manifests| && manifests[i].instanceID == id
  {
    var k: nat :| k < |manifests| && manifests[k].instanceID == id;
    k
  }

  /** The listings by file rather than by position. */
  ghost function ByFile(manifests: seq<Manifest>, stored: seq<FileListing>): string -> FileListing
    requires |stored| == |manifests|
  {
    (id: string) =>
      if exists k: nat :: k < |manifests| && manifests[k].instanceID == id then stored[IndexOf(manifests, id)]
      else FileListing(map[], map[])
  }

  lemma ListedUnder(files: Files, manifests: seq<Manifest>, stored: seq<FileListing>, i: nat)
    requires Lists(files, files.Keys, manifests) && NamedByID(files) && i < |manifests| == |stored|
    ensures manifests[i].instanceID in files && files[manifests[i].instanceID] == Parsed(manifests[i])
    ensures ByFile(manifests, stored)(manifests[i].instanceID) == stored[i]
  {
    var k := IndexOf(manifests, manifests[i].instanceID);
    var id := ListedFile(files, manifests, manifests[i]);
    var other := ListedFile(files, manifests, manifests[k]);
    assert manifests[k] == manifests[i];
    ListedOnce(files, manifests);
  }

  lemma FileListed(files: Files, manifests: seq<Manifest>, stored: seq<FileListing>, id: string) returns (i: nat)
    requires Lists(files, files.Keys, manifests) && NamedByID(files) && |manifests| == |stored|
    requires id in files && files[id].Parsed?
    ensures i < |manifests| && manifests[i] == files[id].manifest && ByFile(manifests, stored)(id) == stored[i]
  {
    assert files[id].manifest in ManifestsOf(files, files.Keys);
    i :| i < |manifests| && manifests[i] == files[id].manifest;
    ListedUnder(files, manifests, stored, i);
  }

  lemma SamePorts(
      files: Files, manifests: seq<Manifest>, self: string, now: int, host: HostView, stored: seq<FileListing>, q: int)
    requires Lists(files, files.Keys, manifests) && NamedByID(files) && |manifests| == |stored|
    ensures q in ActivePortsBy(files, self, now, host, ByFile(manifests, stored))
            <==> q in ActiveListed(manifests, self, now, host, stored)
  {
    var byFile := ByFile(manifests, stored);
    forall id | id in files && files[id].Parsed? && q in ListedBy(files[id].manifest, self, now, host, byFile(id))
      ensures q in ActiveListed(manifests, self, now, host, stored)
    {
      var i := FileListed(files, manifests, stored, id);
    }
    forall i | 0 <= i < |manifests| && q in ListedBy(manifests[i], self, now, host, stored[i])
      ensures q in ActivePortsBy(files, self, now, host, byFile)
    {
      ListedUnder(files, manifests, stored, i);
    }
  }

  /** Where every manifest is stored under its own id, as Save leaves it, the two views of a registry agree. */
  lemma ListedByFile(
      files: Files, manifests: seq<Manifest>, self: string, now: int, host: HostView, stored: seq<FileListing>)
    requires Lists(files, files.Keys, manifests) && NamedByID(files) && AreListings(manifests, stored)
    ensures AreFileListings(files, ByFile(manifests, stored))
    ensures ActivePortsBy(files, self, now, host, ByFile(manifests, stored))
          == ActiveListed(manifests, self, now, host, stored)
  {
    forall id | id in files && files[id].Parsed?
      ensures IsFileListing(files[id].manifest, ByFile(manifests, stored)(id))
    {
      var i := FileListed(files, manifests, stored, id);
    }
    forall q
      ensures q in ActivePortsBy(files, self, now, host, ByFile(manifests, stored))
              <==> q in ActiveListed(manifests, self, now, host, stored)
    {
      SamePorts(files, manifests, self, now, host, stored, q);
    }
  }

  /** What a claim writes into the request's manifest before saving it. */
  function Claimed(m: Manifest, instanceID: string, plan: PortPlan): Manifest {
    m.(ports := plan, status := Reserved, docker := NewDockerPlan(instanceID, m.configPath))
  }

  class PortAllocator {
    const registry: ManifestRegistry
    const probePorts: bool
    const maxSlots: nat

    constructor (registry: ManifestRegistry, probePorts: bool)
      ensures this.registry == registry && this.probePorts == probePorts && maxSlots == 100
    {
      this.registry, this.probePorts, this.maxSlots := registry, probePorts, DEFAULT_MAX_SLOTS;
    }

    /** The ports listed for the active manifests of other instances. */
    method ActiveRegistryPorts(self: string, now: int, host: HostView)
      returns (r: Result<set<int>, RegistryError>, ghost manifests: seq<Manifest>, ghost stored: seq<FileListing>)
      ensures r.Err? <==> AnyGarbled(registry.files)
      ensures r.Ok? ==>
        && Lists(registry.files, registry.files.Keys, manifests) && AreListings(manifests, stored)
        && r.value == ActiveListed(manifests, self, now, host, stored)
    {
      var loaded := registry.LoadAll();
      manifests, stored := [], [];
      if loaded.Err? { return Err(loaded.error), manifests, stored; }
      var ports;
      ports, stored := CollectPorts(loaded.value, self, now, host);
      return Ok(ports), loaded.value, stored;
    }

    method CollectPorts(manifests: seq<Manifest>, self: string, now: int, host: HostView)
      returns (ports: set<int>, ghost stored: seq<FileListing>)
      ensures AreListings(manifests, stored) && ports == ActiveListed(manifests, self, now, host, stored)
    {
      ports, stored := {}, [];
      for i := 0 to |manifests|
        invariant AreListings(manifests[..i], stored)
        invariant ports == ActiveListed(manifests[..i], self, now, host, stored)
      {
        var more; ghost var l;
        more, l := ManifestPorts(manifests[i], self, now, host);
        ActiveListedSnoc(manifests[..i], stored, manifests[i], l, self, now, host);
        AreListingsSnoc(manifests[..i], stored, manifests[i], l);
        assert manifests[..i + 1] == manifests[..i] + [manifests[i]];
        ports, stored := ports + more, stored + [l];
      }
      assert manifests[..|manifests|] == manifests;
    }

    method ManifestPorts(m: Manifest, self: string, now: int, host: HostView)
      returns (ports: set<int>, ghost l: FileListing)
      ensures IsFileListing(m, l) && ports == ListedBy(m, self, now, host, l)
    {
      l := FileListing(SomeNamed(m.ports), SomeNamed(m.ports));
      if m.instanceID == self { return {}, l; }
      var active; ghost var backing;
      active, backing := IsActiveManifest(m, now, host);
      l := l.(backing := backing);
      if !active { return {}, l; }
      var listed; ghost var named;
      listed, named := ListPorts(m.ports);
      return listed, FileListing(backing, named);
    }

    /** None of the listed ports is taken. */
    ghost predicate Avoids(listing: map<string, int>, taken: set<int>) {
      forall key | key in listing && listing[key] > 0 :: listing[key] !in taken
    }

    lemma AvoidsIff(listing: map<string, int>, taken: set<int>)
      ensures Avoids(listing, taken) <==> Positive(listing) * taken == {}
    {
      forall key | key in listing && listing[key] > 0 ensures listing[key] in Positive(listing) {
      }
      if !Avoids(listing, taken) {
        var key :| key in listing && listing[key] > 0 && listing[key] in taken;
        assert listing[key] in Positive(listing) * taken;
      }
    }

    /** The ports a probe of slot `slot` can reject the plan for. */
    function Probes(bound: nat -> set<int>): nat -> set<int> {
      if probePorts then bound else (slot: nat) => {}
    }

    /** What the slot loop decides about one slot. */
    method TrySlot(cfg: LabConfig, used: set<int>, bound: nat -> set<int>, cancelled: nat -> bool, slot: nat)
      returns (verdict: Verdict, plan: PortPlan, ghost l: SlotListing)
      ensures verdict == Take ==> plan == PlanFor(cfg, slot)
      ensures IsSlotListing(cfg, slot, l) && verdict == JudgeBy(used, Probes(bound), cancelled, slot, l)
      ensures verdict == Interrupt <==> cancelled(slot)
      ensures verdict == Take ==> Avoids(l.registry, used) && (probePorts ==> Avoids(l.probe, bound(slot)))
      ensures verdict == Pass ==> !Avoids(l.registry, used) || (probePorts && !Avoids(l.probe, bound(slot)))
    {
      plan := DEFAULT_PLAN;
      ghost var any := SomeNamed(PlanFor(cfg, slot));
      l := SlotListing(any, any, any);
      if cancelled(slot) { return Interrupt, plan, l; }
      var built; ghost var duplicates;
      built, duplicates := BuildPortPlan(Some(cfg), slot);
      l := l.(duplicates := duplicates);
      if built.Err? { return Duplicate, plan, l; }
      plan := built.value;
      var ports; ghost var named;
      ports, named := ListPorts(plan);
      l := l.(registry := named);
      AvoidsIff(named, used);
      if ports * used != {} { return Pass, plan, l; }
      if probePorts {
        var probed;
        probed, named := ListPorts(plan);
        l := l.(probe := named);
        AvoidsIff(named, bound(slot));
        if probed * bound(slot) != {} { return Pass, plan, l; }
      }
      return Take, plan, l;
    }

    /** One pass over the slots: the plan of the first slot that fits. */
    method FindSlot(cfg: LabConfig, used: set<int>, bound: nat -> set<int>, cancelled: nat -> bool)
      returns (fit: Fit, plan: PortPlan, ghost slots: nat -> SlotListing)
      ensures fit.Found? ==> plan == PlanFor(cfg, fit.slot)
      ensures forall slot: nat :: IsSlotListing(cfg, slot, slots(slot))
      ensures fit == FirstFitBy(used, Probes(bound), cancelled, slots, maxSlots)
      ensures fit.Found? ==>
        && fit.slot < maxSlots && !cancelled(fit.slot)
        && Avoids(slots(fit.slot).registry, used) && (probePorts ==> Avoids(slots(fit.slot).probe, bound(fit.slot)))
    {
      plan := DEFAULT_PLAN;
      slots := (t: nat) => SlotListing(SomeNamed(PlanFor(cfg, t)), SomeNamed(PlanFor(cfg, t)),
          SomeNamed(PlanFor(cfg, t)));
      for slot: nat := 0 to maxSlots
        invariant forall t: nat :: IsSlotListing(cfg, t, slots(t))
        invariant forall t: nat | t < slot :: JudgeBy(used, Probes(bound), cancelled, t, slots(t)) == Pass
      {
        var verdict; ghost var l;
        verdict, plan, l := TrySlot(cfg, used, bound, cancelled, slot);
        ghost var earlier := slots;
        slots := (t: nat) => if t == slot then l else earlier(t);
        if verdict != Pass {
          SearchEndsAt(JudgingBy(used, Probes(bound), cancelled, slots), 0, maxSlots, slot);
          fit := match verdict case Interrupt => Interrupted case Duplicate => Duplicated case _ => Found(slot);
          return;
        }
      }
      SearchEndsAt(JudgingBy(used, Probes(bound), cancelled, slots), 0, maxSlots, maxSlots);
      return Exhausted, plan, slots;
    }

    /**
     * The outcome of the slot search, and of the save when it is a claim; the ghost results are the listings it saw.
     */
    method Allocate(
        instanceID: string, cfg: Option<LabConfig>, request: ManifestCell?, claim: bool,
        host: HostView, bound: nat -> set<int>, cancelled: nat -> bool, now: int)
      returns (r: Result<PortPlan, AllocateError>,
               ghost manifests: seq<Manifest>, ghost stored: seq<FileListing>, ghost slots: nat -> SlotListing)
      modifies registry, request
      ensures instanceID == "" ==> r == Err(MissingInstanceID)
      ensures instanceID != "" && cfg.None? ==> r == Err(MissingLabConfig)
      ensures instanceID != "" && cfg.Some? && AnyGarbled(old(registry.files)) ==> r == Err(RegistryUnreadable)
      // Nothing changes unless a plan is found for a claim.
      ensures !claim || (r.Err? && !r.error.SaveFailed?) ==>
        unchanged(registry) && (request != null ==> request.manifest == old(request.manifest))
      ensures instanceID != "" && cfg.Some? && !AnyGarbled(old(registry.files)) ==>
        && Lists(old(registry.files), old(registry.files).Keys, manifests) && AreListings(manifests, stored)
        && (forall slot: nat :: IsSlotListing(cfg.value, slot, slots(slot)))
        && var used := ActiveListed(manifests, instanceID, now, host, stored);
           var fit := FirstFitBy(used, Probes(bound), cancelled, slots, maxSlots);
           && (fit.Interrupted? ==> r == Err(Cancelled))
           && (fit.Duplicated? ==> r == Err(BadPlan))
           && (fit.Exhausted? ==> r == Err(NoSlot))
           && (fit.Found? && !claim ==> r == Ok(PlanFor(cfg.value, fit.slot)))
           && (fit.Found? && claim && request == null ==> r == Err(MissingManifest))
           && (fit.Found? && claim && request != null ==>
                 var claimed := Claimed(old(request.manifest), instanceID, PlanFor(cfg.value, fit.slot));
                 var error := SaveError(old(registry.files), claimed);
                 && registry.files == Saved(old(registry.files), claimed, now)
                 && (error.None? ==> r == Ok(PlanFor(cfg.value, fit.slot)) && request.manifest == Stamped(claimed, now))
                 && (error.Some? ==> r == Err(SaveFailed(error.value)) && request.manifest == claimed))
      ensures r.Ok? ==> exists slot: nat ::
        && slot < maxSlots && !cancelled(slot) && r.value == PlanFor(cfg.value, slot)
        && Avoids(slots(slot).registry, ActiveListed(manifests, instanceID, now, host, stored))
        && (probePorts ==> Avoids(slots(slot).probe, bound(slot)))
      ensures r.Ok? && claim ==> request != null && request.manifest == old(request.manifest).(
        status := Reserved, ports := r.value, docker := NewDockerPlan(instanceID, old(request.manifest).configPath),
        createdAt := if old(request.manifest).createdAt == 0 then now else old(request.manifest).createdAt,
        updatedAt := now)
    {
      manifests, stored := [], [];
      slots := (t: nat) => SlotListing(map[], map[], map[]);
      if instanceID == "" { return Err(MissingInstanceID), manifests, stored, slots; }
      if cfg.None? { return Err(MissingLabConfig), manifests, stored, slots; }
      var used;
      used, manifests, stored := ActiveRegistryPorts(instanceID, now, host);
      if used.Err? { return Err(RegistryUnreadable), manifests, stored, slots; }
      var fit, plan;
      fit, plan, slots := FindSlot(cfg.value, used.value, bound, cancelled);
      match fit {
        case Interrupted => return Err(Cancelled), manifests, stored, slots;
        case Duplicated => return Err(BadPlan), manifests, stored, slots;
        case Exhausted => return Err(NoSlot), manifests, stored, slots;
        case Found(_) =>
      }
      if claim {
        if request == null { return Err(MissingManifest), manifests, stored, slots; }
        request.manifest := Claimed(request.manifest, instanceID, plan);
        var error := registry.Save(request, now);
        if error.Some? { return Err(SaveFailed(error.value)), manifests, stored, slots; }
      }
      r := Ok(plan);
    }
  }
}
