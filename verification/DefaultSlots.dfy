/** Slots of the default, mainnet-only lab: which ones overlap, and which one each further claim gets. */
module DefaultSlots {
  import opened Common
  import opened PortPlans
  import opened Ports
  import opened Registry
  import opened Allocator

  const MAINNET := NetworkConfig("mainnet", true, 0)

  const DEFAULT_LAB := LabConfig(
    8123, 8125, 6380, 6380, 9090, 3000, 8080, 5173, 8081, 8091, 8085,
    [MAINNET, NetworkConfig("sepolia", false, 1), NetworkConfig("hoodi", false, 2)])

  const BASE_PORTS: set<int> := {
    8080, 5173, 19280, 8123, 9000, 8124, 9001, 8125, 9002, 8126, 9003, 6380, 9090, 3000,
    8081, 8091, 8085, 9100, 9200}

  lemma OnlyMainnet()
    ensures EnabledNetworks(DEFAULT_LAB) == [MAINNET]
    ensures NetworkNameSet(DEFAULT_LAB) == {"mainnet"}
    ensures NamesSafe(DEFAULT_LAB)
  {
    var all := DEFAULT_LAB.networks;
    assert EnabledAmong(all[3..]) == [];
    assert EnabledAmong(all[2..]) == [] by { assert all[2..][1..] == all[3..]; }
    assert EnabledAmong(all[1..]) == [] by { assert all[1..][1..] == all[2..]; }
    PrefixedIsLonger("mainnet", "mainnet");
  }

  lemma PrefixedIsLonger(a: string, b: string)
    ensures Prefixed(a, b) ==> |b| > |a|
  {
    if Prefixed(a, b) {
      var s :| s in CLASH_PREFIXES && b == s + a;
      assert |s| > 0;
    }
  }

  lemma PlanHasPort(p: PortPlan, n: PortName)
    requires IsPortName(p.networks.Keys, n) && PortAt(p, n) > 0
    ensures PortAt(p, n) in PortSet(p)
  {
    PortSetMember(p, PortAt(p, n));
  }

  const MAINNET_PLAN := DEFAULT_PLAN.(networks := map["mainnet" := NetworkPortPlan(8081, 8091, 8085, 9100, 9200)])

  /** The name that owns a port of the default plan. */
  function NameAt(q: int): PortName {
    if q == 8080 then Fixed(LabBackend) else if q == 5173 then Fixed(LabFrontend)
    else if q == 19280 then Fixed(CommandCenter)
    else if q == 8123 then Fixed(ClickHouseCBT01HTTP) else if q == 9000 then Fixed(ClickHouseCBT01TCP)
    else if q == 8124 then Fixed(ClickHouseCBT02HTTP) else if q == 9001 then Fixed(ClickHouseCBT02TCP)
    else if q == 8125 then Fixed(ClickHouseXatu01HTTP) else if q == 9002 then Fixed(ClickHouseXatu01TCP)
    else if q == 8126 then Fixed(ClickHouseXatu02HTTP) else if q == 9003 then Fixed(ClickHouseXatu02TCP)
    else if q == 6380 then Fixed(Redis) else if q == 9090 then Fixed(Prometheus) else if q == 3000 then Fixed(Grafana)
    else if q == 8081 then OfNetwork(CBT, "mainnet") else if q == 8091 then OfNetwork(CBTAPI, "mainnet")
    else if q == 8085 then OfNetwork(CBTFrontend, "mainnet") else if q == 9100 then OfNetwork(CBTMetrics, "mainnet")
    else OfNetwork(CBTAPIMetrics, "mainnet")
  }

  lemma DefaultPortAt(p: PortPlan, n: PortName)
    requires p == MAINNET_PLAN && IsPortName({"mainnet"}, n)
    ensures PortAt(p, n) in BASE_PORTS && PortAt(p, n) > 0
    ensures NameAt(PortAt(p, n)) == n
  {
    match n
    case Fixed(f) => match f {
      case LabBackend => case LabFrontend => case CommandCenter =>
      case ClickHouseCBT01HTTP => case ClickHouseCBT01TCP => case ClickHouseCBT02HTTP => case ClickHouseCBT02TCP =>
      case ClickHouseXatu01HTTP => case ClickHouseXatu01TCP => case ClickHouseXatu02HTTP => case ClickHouseXatu02TCP =>
      case Redis => case Prometheus => case Grafana =>
    }
    case OfNetwork(k, network) => match k {
      case CBT => case CBTAPI => case CBTFrontend => case CBTMetrics => case CBTAPIMetrics =>
    }
  }

  lemma DefaultPlan()
    ensures PlanFor(DEFAULT_LAB, 0) == MAINNET_PLAN
  {
    OnlyMainnet();
    var base := FixedPlan(DEFAULT_LAB, 0);
    assert NetworkPlans(base, [MAINNET], 1) == map["mainnet" := NetworkPlan(base, MAINNET, 0)];
  }

  lemma MainnetPorts(p: PortPlan)
    requires p == MAINNET_PLAN
    ensures PortSet(p) == BASE_PORTS
  {
    forall q | q in PortSet(p) ensures q in BASE_PORTS {
      PortSetMember(p, q);
      var n :| IsPortName(p.networks.Keys, n) && PortAt(p, n) == q;
      DefaultPortAt(p, n);
    }
    forall q | q in BASE_PORTS ensures q in PortSet(p) {
      assert IsPortName(p.networks.Keys, NameAt(q)) && PortAt(p, NameAt(q)) == q;
      PlanHasPort(p, NameAt(q));
    }
  }

  /** The slot-0 ports of the default lab, computed from its plan. */
  lemma BasePorts()
    ensures PortSet(PlanFor(DEFAULT_LAB, 0)) == BASE_PORTS
    ensures BasePortsPositive(DEFAULT_LAB)
  {
    DefaultPlan();
    OnlyMainnet();
    var p := PlanFor(DEFAULT_LAB, 0);
    MainnetPorts(p);
    forall n | IsPortName({"mainnet"}, n) ensures PortAt(p, n) > 0 {
      DefaultPortAt(p, n);
    }
  }

  // ---- Which slots overlap ----

  lemma SameResidueBasePorts(p: int, q: int)
    requires p in BASE_PORTS && q in BASE_PORTS && Residue(p) == Residue(q) && p < q
    ensures p == 3000 && q == 9000
  {
  }

  ghost predicate SlotsOverlap(s: nat, t: nat) {
    PortSet(PlanFor(DEFAULT_LAB, s)) * PortSet(PlanFor(DEFAULT_LAB, t)) != {}
  }

  predicate Collide(s: nat, t: nat) {
    s == t || s == t + 6 || t == s + 6
  }

  lemma SharedPortSixApart(base: set<int>, s: nat, t: nat, q: int)
    requires base <= BASE_PORTS && q in Shifted(base, s) && q in Shifted(base, t)
    ensures Collide(s, t)
  {
    var a, b := q - s * PORT_STRIDE, q - t * PORT_STRIDE;
    ShiftKeepsResidue(q, s);
    ShiftKeepsResidue(q, t);
    if a < b { SameResidueBasePorts(a, b); }
    if b < a { SameResidueBasePorts(b, a); }
  }

  lemma SixApartSharesPort(base: set<int>, s: nat, t: nat)
    requires {8080, 3000, 9000} <= base && Collide(s, t)
    ensures Shifted(base, s) * Shifted(base, t) != {}
  {
    var a := if s == t then 8080 else if s > t then 3000 else 9000;
    var b := if s == t then 8080 else if s > t then 9000 else 3000;
    assert a in base && b in base && a + s * PORT_STRIDE == b + t * PORT_STRIDE;
    assert a + s * PORT_STRIDE in Shifted(base, s) * Shifted(base, t);
  }

  /** Two slots overlap exactly when they are equal or six apart, where Grafana meets ClickHouse. */
  lemma OverlapIffSixApart(s: nat, t: nat)
    ensures SlotsOverlap(s, t) <==> Collide(s, t)
  {
    BasePorts();
    PortSetShiftAt(DEFAULT_LAB, s);
    PortSetShiftAt(DEFAULT_LAB, t);
    if SlotsOverlap(s, t) {
      var q := Member(PortSet(PlanFor(DEFAULT_LAB, s)) * PortSet(PlanFor(DEFAULT_LAB, t)));
      SharedPortSixApart(PortSet(PlanFor(DEFAULT_LAB, 0)), s, t, q);
    }
    if Collide(s, t) {
      SixApartSharesPort(PortSet(PlanFor(DEFAULT_LAB, 0)), s, t);
    }
  }

  // ---- The slot of the k-th concurrent claim ----

  function SlotOfClaim(k: nat): nat { 12 * (k / 6) + k % 6 }

  lemma SlotsIncrease(j: nat, k: nat)
    requires j < k
    ensures SlotOfClaim(j) < SlotOfClaim(k)
  {
    BlocksOfSix(j / 6, j % 6, k / 6, k % 6);
  }

  lemma BlocksOfSix(a: nat, x: nat, b: nat, y: nat)
    requires x < 6 && y < 6 && 6 * a + x < 6 * b + y
    ensures 12 * a + x < 12 * b + y
  {
    assert a <= b;
  }

  lemma ClaimSlotsNeverCollide(j: nat, k: nat)
    requires j != k
    ensures !Collide(SlotOfClaim(j), SlotOfClaim(k))
  {
    BlocksApart(j / 6, j % 6, k / 6, k % 6);
  }

  lemma BlocksApart(a: nat, x: nat, b: nat, y: nat)
    requires x < 6 && y < 6 && (a != b || x != y)
    ensures !Collide(12 * a + x, 12 * b + y)
  {
    assert a < b || a == b || a > b;
  }

  /** Every slot below the k-th claim's collides with the slot of an earlier claim. */
  lemma SlotsBelowTaken(k: nat, s: nat) returns (j: nat)
    requires s < SlotOfClaim(k)
    ensures j < k && Collide(s, SlotOfClaim(j))
  {
    j := 6 * (s / 12) + if s % 12 < 6 then s % 12 else s % 12 - 6;
    assert j / 6 == s / 12 && j % 6 == if s % 12 < 6 then s % 12 else s % 12 - 6;
    if j > k { SlotsIncrease(k, j); }
  }

  datatype Request = Request(manifest: Manifest, now: int, host: HostView)

  const NO_PROBE: nat -> set<int> := (slot: nat) => {}
  const NEVER: nat -> bool := (slot: nat) => false

  /** How the slot search of a further claim ends, on a registry `files`. */
  ghost function ClaimFit(files: Files, r: Request, limit: nat): Fit {
    FirstFit(DEFAULT_LAB, ActivePorts(files, r.manifest.instanceID, r.now, r.host), NO_PROBE, NEVER, limit)
  }

  /** The registry after one more request has claimed. */
  ghost function AfterClaim(files: Files, r: Request, limit: nat): Files {
    var fit := ClaimFit(files, r, limit);
    if fit.Found?
    then Saved(files, Claimed(r.manifest, r.manifest.instanceID, PlanFor(DEFAULT_LAB, fit.slot)), r.now)
    else files
  }

  /** The registry after the requests claimed one after the other, starting from an empty one. */
  ghost function AfterClaims(requests: seq<Request>, limit: nat): Files {
    if requests == [] then map[]
    else AfterClaim(AfterClaims(requests[..|requests| - 1], limit), requests[|requests| - 1], limit)
  }

  /** Different instances, all claiming within one grace period. */
  ghost predicate Concurrent(requests: seq<Request>) {
    && (forall i | 0 <= i < |requests| :: requests[i].manifest.instanceID != "" && requests[i].now > 0)
    && (forall i, j | 0 <= i < j < |requests| ::
          && requests[i].manifest.instanceID != requests[j].manifest.instanceID
          && requests[j].now - requests[i].now <= GRACE_PERIOD)
  }

  ghost predicate HoldsSlot(files: Files, r: Request, slot: nat) {
    && r.manifest.instanceID in files
    && files[r.manifest.instanceID].Parsed?
    && var m := files[r.manifest.instanceID].manifest;
       m.instanceID == r.manifest.instanceID && m.status == Reserved && m.updatedAt == r.now
       && m.ports == PlanFor(DEFAULT_LAB, slot)
  }

  /** Claim k of the requests holds slot SlotOfClaim(k), and nothing else is registered. */
  ghost predicate AllHold(files: Files, requests: seq<Request>) {
    && (forall k | 0 <= k < |requests| :: HoldsSlot(files, requests[k], SlotOfClaim(k)))
    && (forall id | id in files :: exists k :: 0 <= k < |requests| && requests[k].manifest.instanceID == id)
  }

  lemma NoDefaultDuplicates(slot: nat)
    ensures !HasDuplicates(PlanFor(DEFAULT_LAB, slot))
  {
    BasePorts();
    DuplicatesAtEverySlotOrNone(DEFAULT_LAB, slot);
    DefaultPlan();
    var p := PlanFor(DEFAULT_LAB, 0);
    forall a, b | IsPortName(p.networks.Keys, a) && IsPortName(p.networks.Keys, b) && PortAt(p, a) == PortAt(p, b)
      ensures a == b
    {
      DefaultPortAt(p, a);
      DefaultPortAt(p, b);
    }
  }

  lemma UsedIsHeld(files: Files, requests: seq<Request>, r: Request, q: int) returns (k: nat)
    requires AllHold(files, requests) && q in ActivePorts(files, r.manifest.instanceID, r.now, r.host)
    ensures k < |requests| && q in PortSet(PlanFor(DEFAULT_LAB, SlotOfClaim(k)))
  {
    var id :| id in files && files[id].Parsed? && q in PortSet(files[id].manifest.ports);
    k :| 0 <= k < |requests| && requests[k].manifest.instanceID == id;
    assert HoldsSlot(files, requests[k], SlotOfClaim(k));
  }

  lemma AcceptableIffNoCollision(files: Files, requests: seq<Request>, r: Request, slot: nat)
    requires Concurrent(requests + [r]) && AllHold(files, requests)
    ensures Acceptable(DEFAULT_LAB, ActivePorts(files, r.manifest.instanceID, r.now, r.host), NO_PROBE, slot)
       <==> forall k | 0 <= k < |requests| :: !Collide(slot, SlotOfClaim(k))
  {
    var used := ActivePorts(files, r.manifest.instanceID, r.now, r.host);
    var mine := PortSet(PlanFor(DEFAULT_LAB, slot));
    assert used + NO_PROBE(slot) == used;
    forall k | 0 <= k < |requests| ensures PortSet(PlanFor(DEFAULT_LAB, SlotOfClaim(k))) <= used {
      assert HoldsSlot(files, requests[k], SlotOfClaim(k));
      assert (requests + [r])[k] == requests[k] && (requests + [r])[|requests|] == r;
    }
    forall k | 0 <= k < |requests| && Collide(slot, SlotOfClaim(k)) ensures mine * used != {} {
      OverlapIffSixApart(slot, SlotOfClaim(k));
      assert mine * PortSet(PlanFor(DEFAULT_LAB, SlotOfClaim(k))) <= mine * used;
    }
    if mine * used != {} {
      var q := Member(mine * used);
      var k := UsedIsHeld(files, requests, r, q);
      assert q in mine * PortSet(PlanFor(DEFAULT_LAB, SlotOfClaim(k)));
      OverlapIffSixApart(slot, SlotOfClaim(k));
    }
  }

  /** The next of k earlier claims gets slot SlotOfClaim(k), or no slot when that is beyond the limit. */
  lemma NextClaim(files: Files, requests: seq<Request>, r: Request, limit: nat)
    requires Concurrent(requests + [r]) && AllHold(files, requests)
    ensures ClaimFit(files, r, limit)
          == if SlotOfClaim(|requests|) < limit then Found(SlotOfClaim(|requests|)) else Exhausted
  {
    var used := ActivePorts(files, r.manifest.instanceID, r.now, r.host);
    var judge := Judging(DEFAULT_LAB, used, NO_PROBE, NEVER);
    forall s: nat | s <= SlotOfClaim(|requests|)
      ensures judge(s) == if s == SlotOfClaim(|requests|) then Take else Pass
    {
      NoDefaultDuplicates(s);
      AcceptableIffNoCollision(files, requests, r, s);
      if s < SlotOfClaim(|requests|) {
        var j := SlotsBelowTaken(|requests|, s);
      } else {
        forall k | 0 <= k < |requests| ensures !Collide(s, SlotOfClaim(k)) {
          ClaimSlotsNeverCollide(|requests|, k);
        }
      }
    }
    SearchEndsAt(judge, 0, limit, if SlotOfClaim(|requests|) < limit then SlotOfClaim(|requests|) else limit);
  }

  lemma OthersHold(files: Files, requests: seq<Request>, r: Request, claimed: Manifest)
    requires Concurrent(requests + [r]) && AllHold(files, requests) && claimed.instanceID == r.manifest.instanceID
    ensures claimed.instanceID !in files
    ensures forall k | 0 <= k < |requests| :: HoldsSlot(Saved(files, claimed, r.now), requests[k], SlotOfClaim(k))
  {
    var all := requests + [r];
    assert all[|requests|] == r;
    forall k | 0 <= k < |requests| ensures requests[k].manifest.instanceID != claimed.instanceID {
      assert all[k] == requests[k];
    }
    forall k | 0 <= k < |requests| ensures HoldsSlot(Saved(files, claimed, r.now), requests[k], SlotOfClaim(k)) {
      assert HoldsSlot(files, requests[k], SlotOfClaim(k));
    }
  }

  lemma ClaimHolds(files: Files, requests: seq<Request>, r: Request, claimed: Manifest)
    requires Concurrent(requests + [r]) && AllHold(files, requests)
    requires claimed.instanceID == r.manifest.instanceID && claimed.status == Reserved
    requires claimed.ports == PlanFor(DEFAULT_LAB, SlotOfClaim(|requests|))
    ensures AllHold(Saved(files, claimed, r.now), requests + [r])
  {
    var all := requests + [r];
    var after := Saved(files, claimed, r.now);
    OthersHold(files, requests, r, claimed);
    assert all[|requests|] == r && HoldsSlot(after, r, SlotOfClaim(|requests|));
    forall k | 0 <= k < |all| ensures HoldsSlot(after, all[k], SlotOfClaim(k)) {
      assert k < |requests| ==> all[k] == requests[k];
    }
    forall id | id in after ensures exists k :: 0 <= k < |all| && all[k].manifest.instanceID == id {
      if id in files {
        var k :| 0 <= k < |requests| && requests[k].manifest.instanceID == id;
        assert all[k].manifest.instanceID == id;
      } else {
        assert all[|requests|].manifest.instanceID == id;
      }
    }
  }

  lemma ClaimAdds(files: Files, requests: seq<Request>, r: Request, limit: nat)
    requires Concurrent(requests + [r]) && AllHold(files, requests) && SlotOfClaim(|requests|) < limit
    ensures AllHold(AfterClaim(files, r, limit), requests + [r])
  {
    NextClaim(files, requests, r, limit);
    ClaimHolds(files, requests, r,
        Claimed(r.manifest, r.manifest.instanceID, PlanFor(DEFAULT_LAB, SlotOfClaim(|requests|))));
  }

  /** In any run of concurrent claims, the k-th claim holds slot 12 * (k / 6) + k % 6 while that is below the limit. */
  lemma {:induction false} ConcurrentClaims(requests: seq<Request>, limit: nat)
    requires Concurrent(requests)
    requires forall k | 0 <= k < |requests| :: SlotOfClaim(k) < limit
    ensures AllHold(AfterClaims(requests, limit), requests)
  {
    if requests == [] {
    } else {
      var n := |requests| - 1;
      var earlier, r := requests[..n], requests[n];
      assert requests == earlier + [r];
      ConcurrentClaims(earlier, limit);
      ClaimAdds(AfterClaims(earlier, limit), earlier, r, limit);
    }
  }

  lemma LastIsHighest(n: nat, limit: nat)
    requires n > 0 ==> SlotOfClaim(n - 1) < limit
    ensures forall k | 0 <= k < n :: SlotOfClaim(k) < limit
  {
    forall k | 0 <= k < n ensures SlotOfClaim(k) < limit {
      if k < n - 1 { SlotsIncrease(k, n - 1); }
    }
  }

  lemma ConcurrentPrefix(requests: seq<Request>, r: Request)
    requires Concurrent(requests + [r])
    ensures Concurrent(requests)
  {
    var all := requests + [r];
    assert forall i | 0 <= i < |requests| :: requests[i] == all[i];
  }

  /** After any number of concurrent claims that found a slot, how the next one ends. */
  lemma ClaimAfterClaims(requests: seq<Request>, r: Request, limit: nat)
    requires Concurrent(requests + [r])
    requires requests != [] ==> SlotOfClaim(|requests| - 1) < limit
    ensures AllHold(AfterClaims(requests, limit), requests)
    ensures ClaimFit(AfterClaims(requests, limit), r, limit)
         == if SlotOfClaim(|requests|) < limit then Found(SlotOfClaim(|requests|)) else Exhausted
  {
    ConcurrentPrefix(requests, r);
    LastIsHighest(|requests|, limit);
    ConcurrentClaims(requests, limit);
    NextClaim(AfterClaims(requests, limit), requests, r, limit);
  }

  /** With the default limit 52 instances fit side by side, and the next claim finds no slot. */
  lemma FiftyTwoInstances(requests: seq<Request>, r: Request, limit: nat)
    requires Concurrent(requests + [r]) && |requests| == 52 && limit == DEFAULT_MAX_SLOTS
    ensures AllHold(AfterClaims(requests, limit), requests)
    ensures ClaimFit(AfterClaims(requests, limit), r, limit) == Exhausted
  {
    ClaimAfterClaims(requests, r, limit);
  }

  // ---- The allocator makes these claims ----

  /** Every file parses, holds the manifest of its own id, and names its ports apart. */
  ghost predicate Tidy(files: Files) {
    && !AnyGarbled(files) && NamedByID(files)
    && forall id | id in files && files[id].Parsed? :: LabelsDistinct(files[id].manifest.ports.networks.Keys)
  }

  lemma ClaimKeepsTidy(files: Files, r: Request, limit: nat)
    requires Tidy(files)
    ensures Tidy(AfterClaim(files, r, limit))
  {
    var fit := ClaimFit(files, r, limit);
    OnlyMainnet();
    if fit.Found? {
      SafePlan(DEFAULT_LAB, fit.slot);
      var claimed := Claimed(r.manifest, r.manifest.instanceID, PlanFor(DEFAULT_LAB, fit.slot));
      assert claimed.ports == PlanFor(DEFAULT_LAB, fit.slot) && claimed.instanceID == r.manifest.instanceID;
      forall id | id in AfterClaim(files, r, limit) ensures AfterClaim(files, r, limit)[id].Parsed? {
        assert id in files ==> !files[id].Garbled?;
      }
    }
  }

  /** On a tidy registry the search of the allocator ends as ClaimFit says. */
  lemma ListingsFit(
      files: Files, r: Request, manifests: seq<Manifest>, stored: seq<FileListing>, slots: nat -> SlotListing,
      limit: nat)
    requires Tidy(files) && Lists(files, files.Keys, manifests) && AreListings(manifests, stored)
    requires forall slot: nat :: IsSlotListing(DEFAULT_LAB, slot, slots(slot))
    ensures var used := ActiveListed(manifests, r.manifest.instanceID, r.now, r.host, stored);
      FirstFitBy(used, NO_PROBE, NEVER, slots, limit) == ClaimFit(files, r, limit)
  {
    var self := r.manifest.instanceID;
    ListedByFile(files, manifests, self, r.now, r.host, stored);
    SafeNamesActive(files, self, r.now, r.host, ByFile(manifests, stored));
    OnlyMainnet();
    SafeNamesFit(DEFAULT_LAB, ActivePorts(files, self, r.now, r.host), NO_PROBE, NEVER, slots, limit);
  }

  /** The result that the claim of a new instance has on a registry `files`. */
  ghost predicate IsResult(files: Files, r: Request, limit: nat, result: Result<PortPlan, AllocateError>) {
    r.manifest.instanceID != "" && r.manifest.instanceID !in files ==>
      var fit := ClaimFit(files, r, limit);
      && (fit.Found? ==> result == Ok(PlanFor(DEFAULT_LAB, fit.slot)))
      && (fit.Exhausted? ==> result == Err(NoSlot))
  }

  /** One claim of the default lab, on a host where every port can be bound. */
  method Claim(allocator: PortAllocator, r: Request) returns (result: Result<PortPlan, AllocateError>)
    requires Tidy(allocator.registry.files)
    modifies allocator.registry
    ensures allocator.registry.files == AfterClaim(old(allocator.registry.files), r, allocator.maxSlots)
    ensures Tidy(allocator.registry.files)
    ensures IsResult(old(allocator.registry.files), r, allocator.maxSlots, result)
  {
    ghost var files := allocator.registry.files;
    var cell := new ManifestCell(r.manifest);
    ghost var manifests, stored, slots;
    result, manifests, stored, slots :=
      allocator.Allocate(r.manifest.instanceID, Some(DEFAULT_LAB), cell, true, r.host, NO_PROBE, NEVER, r.now);
    ClaimKeepsTidy(files, r, allocator.maxSlots);
    if r.manifest.instanceID != "" {
      ListingsFit(files, r, manifests, stored, slots, allocator.maxSlots);
    }
  }

  /** The slot of claim k, or none when that is beyond the limit. */
  function ResultOfClaim(k: nat, limit: nat): Result<PortPlan, AllocateError> {
    if SlotOfClaim(k) < limit then Ok(PlanFor(DEFAULT_LAB, SlotOfClaim(k))) else Err(NoSlot)
  }

  /** The first `held` of the requests hold their slots, and the others found none. */
  ghost predicate Claiming(files: Files, requests: seq<Request>, held: nat, limit: nat) {
    && held <= |requests| && AllHold(files, requests[..held])
    && (forall k | 0 <= k < held :: SlotOfClaim(k) < limit)
    && (held < |requests| ==> SlotOfClaim(held) >= limit)
  }

  lemma ConcurrentPart(requests: seq<Request>, held: nat, r: Request)
    requires Concurrent(requests + [r]) && held <= |requests|
    ensures Concurrent(requests[..held] + [r])
  {
    var all, part := requests + [r], requests[..held] + [r];
    assert all[|requests|] == r;
    forall i | 0 <= i < |part| ensures part[i] == all[if i < held then i else |requests|] {
    }
  }

  /** How the next claim ends, when some of the earlier ones may have found no slot. */
  lemma NextFit(files: Files, requests: seq<Request>, held: nat, r: Request, limit: nat)
    requires Concurrent(requests + [r]) && Claiming(files, requests, held, limit)
    ensures r.manifest.instanceID != "" && r.manifest.instanceID !in files
    ensures ClaimFit(files, r, limit)
          == if SlotOfClaim(|requests|) < limit then Found(SlotOfClaim(|requests|)) else Exhausted
  {
    var first := requests[..held];
    ConcurrentPart(requests, held, r);
    NextClaim(files, first, r, limit);
    OthersHold(files, first, r, r.manifest);
    assert (requests + [r])[|requests|] == r;
    if held < |requests| { SlotsIncrease(held, |requests|); }
  }

  lemma NextHolds(files: Files, requests: seq<Request>, held: nat, r: Request, limit: nat)
    requires Concurrent(requests + [r]) && Claiming(files, requests, held, limit)
    ensures Claiming(AfterClaim(files, r, limit), requests + [r],
      if SlotOfClaim(|requests|) < limit then held + 1 else held, limit)
  {
    NextFit(files, requests, held, r, limit);
    if SlotOfClaim(|requests|) < limit {
      if held < |requests| { SlotsIncrease(held, |requests|); }
      assert requests[..held] == requests && (requests + [r])[..held + 1] == requests + [r];
      ClaimAdds(files, requests, r, limit);
    } else {
      assert (requests + [r])[..held] == requests[..held];
    }
  }

  lemma {:induction false} ClaimingAfter(requests: seq<Request>, limit: nat) returns (held: nat)
    requires Concurrent(requests)
    ensures Claiming(AfterClaims(requests, limit), requests, held, limit)
  {
    if requests == [] {
      held := 0;
    } else {
      var n := |requests| - 1;
      var earlier, r := requests[..n], requests[n];
      assert requests == earlier + [r];
      ConcurrentPrefix(earlier, r);
      held := ClaimingAfter(earlier, limit);
      NextHolds(AfterClaims(earlier, limit), earlier, held, r, limit);
      held := if SlotOfClaim(n) < limit then held + 1 else held;
    }
  }

  lemma ConcurrentTake(requests: seq<Request>, k: nat)
    requires Concurrent(requests) && k < |requests|
    ensures Concurrent(requests[..k]) && Concurrent(requests[..k] + [requests[k]])
  {
    assert requests[..k] + [requests[k]] == requests[..k + 1];
  }

  /** The result of claim k is that of its request on the registry the earlier claims left. */
  ghost predicate IsResultAt(requests: seq<Request>, limit: nat, k: nat, result: Result<PortPlan, AllocateError>) {
    k < |requests| && IsResult(AfterClaims(requests[..k], limit), requests[k], limit, result)
  }

  lemma ResultAt(requests: seq<Request>, k: nat, limit: nat, result: Result<PortPlan, AllocateError>)
    requires Concurrent(requests) && IsResultAt(requests, limit, k, result)
    ensures result == ResultOfClaim(k, limit)
  {
    ConcurrentTake(requests, k);
    var held := ClaimingAfter(requests[..k], limit);
    NextFit(AfterClaims(requests[..k], limit), requests[..k], held, requests[k], limit);
  }

  ghost predicate AreResults(requests: seq<Request>, limit: nat, results: seq<Result<PortPlan, AllocateError>>) {
    |results| <= |requests| && forall k | 0 <= k < |results| :: IsResultAt(requests, limit, k, results[k])
  }

  lemma ConcurrentResults(requests: seq<Request>, limit: nat, results: seq<Result<PortPlan, AllocateError>>)
    requires Concurrent(requests) && AreResults(requests, limit, results)
    ensures forall k | 0 <= k < |results| :: results[k] == ResultOfClaim(k, limit)
  {
    forall k | 0 <= k < |results| ensures results[k] == ResultOfClaim(k, limit) {
      ResultAt(requests, k, limit, results[k]);
    }
  }

  lemma OneMoreHolds<T>(items: seq<T>, item: T, holds: (nat, T) -> bool)
    requires (forall k: nat | k < |items| :: holds(k, items[k])) && holds(|items|, item)
    ensures forall k: nat | k <= |items| :: holds(k, (items + [item])[k])
  {
  }

  lemma AfterClaimsSnoc(requests: seq<Request>, i: nat, limit: nat)
    requires i < |requests|
    ensures AfterClaims(requests[..i + 1], limit) == AfterClaim(AfterClaims(requests[..i], limit), requests[i], limit)
  {
    assert requests[..i + 1][..i] == requests[..i];
  }

  /**
   * One allocator serves the requests in turn: the registry is that of AfterClaims, and claim k gets slot
   * SlotOfClaim(k).
   */
  method ClaimInTurn(requests: seq<Request>)
    returns (registry: ManifestRegistry, results: seq<Result<PortPlan, AllocateError>>)
    ensures fresh(registry) && registry.files == AfterClaims(requests, DEFAULT_MAX_SLOTS)
    ensures |results| == |requests|
    ensures Concurrent(requests) ==> forall k | 0 <= k < |requests| :: results[k] == ResultOfClaim(k, DEFAULT_MAX_SLOTS)
  {
    registry := new ManifestRegistry();
    var allocator := new PortAllocator(registry, true);
    results := [];
    for i := 0 to |requests|
      invariant registry.files == AfterClaims(requests[..i], DEFAULT_MAX_SLOTS) && Tidy(registry.files)
      invariant |results| == i && AreResults(requests, DEFAULT_MAX_SLOTS, results)
    {
      AfterClaimsSnoc(requests, i, DEFAULT_MAX_SLOTS);
      var result := Claim(allocator, requests[i]);
      OneMoreHolds(results, result,
                   (k: nat, one: Result<PortPlan, AllocateError>) => IsResultAt(requests, DEFAULT_MAX_SLOTS, k, one));
      results := results + [result];
    }
    assert requests[..|requests|] == requests;
    if Concurrent(requests) {
      ConcurrentResults(requests, DEFAULT_MAX_SLOTS, results);
    }
  }
}
