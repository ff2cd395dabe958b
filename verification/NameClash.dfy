/**
 * Two labs that end up on one port: the network names of the first make the allocator overlook it
 * (pkg/instance/ports.go:289-295, pkg/instance/allocator.go:148-166).
 */
module NameClash {
  import opened PortPlans
  import opened Ports
  import opened Allocator
  import opened DefaultSlots

  /** The key "cbt-api-x" stands for the API of network x and for the service of network api-x. */
  const CLASHING := DEFAULT_LAB.(networks := [NetworkConfig("x", true, 0), NetworkConfig("api-x", true, 3)])

  const MOVED := DEFAULT_LAB.(labBackend := 7091, networks := [])

  const X := NetworkPortPlan(8081, 8091, 8085, 9100, 9200)
  const API_X := NetworkPortPlan(8084, 8094, 8088, 9101, 9201)
  const CLASHING_PLAN := DEFAULT_PLAN.(networks := map["x" := X, "api-x" := API_X])

  const CLASHING_PORTS: set<int> := {
    8080, 5173, 19280, 8123, 9000, 8124, 9001, 8125, 9002, 8126, 9003, 6380, 9090, 3000,
    8081, 8091, 8085, 9100, 9200, 8084, 8094, 8088, 9101, 9201}

  lemma ClashingPlan()
    ensures PlanFor(CLASHING, 0) == CLASHING_PLAN
  {
    var all := CLASHING.networks;
    assert EnabledAmong(all[2..]) == [];
    assert EnabledAmong(all[1..]) == [all[1]] by { assert all[1..][1..] == all[2..]; }
    assert EnabledNetworks(CLASHING) == all;
    var base := FixedPlan(CLASHING, 0);
    assert NetworkPlans(base, all, 1) == map["x" := NetworkPlan(base, all[0], 0)];
    assert NetworkPlans(base, all, 2) == NetworkPlans(base, all, 1)["api-x" := NetworkPlan(base, all[1], 1)];
  }

  /** The name that owns a port of the plan. */
  function OwnerOf(q: int): PortName {
    if q == 8081 then OfNetwork(CBT, "x") else if q == 8091 then OfNetwork(CBTAPI, "x")
    else if q == 8085 then OfNetwork(CBTFrontend, "x") else if q == 9100 then OfNetwork(CBTMetrics, "x")
    else if q == 9200 then OfNetwork(CBTAPIMetrics, "x")
    else if q == 8084 then OfNetwork(CBT, "api-x") else if q == 8094 then OfNetwork(CBTAPI, "api-x")
    else if q == 8088 then OfNetwork(CBTFrontend, "api-x") else if q == 9101 then OfNetwork(CBTMetrics, "api-x")
    else if q == 9201 then OfNetwork(CBTAPIMetrics, "api-x")
    else NameAt(q)
  }

  lemma FixedPortAt(p: PortPlan, f: Field)
    requires p == CLASHING_PLAN
    ensures PortAt(p, Fixed(f)) in CLASHING_PORTS && OwnerOf(PortAt(p, Fixed(f))) == Fixed(f)
  {
    match f
    case LabBackend => case LabFrontend => case CommandCenter =>
    case ClickHouseCBT01HTTP => case ClickHouseCBT01TCP => case ClickHouseCBT02HTTP => case ClickHouseCBT02TCP =>
    case ClickHouseXatu01HTTP => case ClickHouseXatu01TCP => case ClickHouseXatu02HTTP => case ClickHouseXatu02TCP =>
    case Redis => case Prometheus => case Grafana =>
  }

  lemma NetworkPortAt(p: PortPlan, k: NetworkKind, network: string)
    requires p == CLASHING_PLAN && network in {"x", "api-x"}
    ensures PortAt(p, OfNetwork(k, network)) in CLASHING_PORTS
    ensures OwnerOf(PortAt(p, OfNetwork(k, network))) == OfNetwork(k, network)
  {
    assert network == "x" || network == "api-x";
    match k case CBT => case CBTAPI => case CBTFrontend => case CBTMetrics => case CBTAPIMetrics =>
  }

  lemma ClashingPortAt(p: PortPlan, n: PortName)
    requires p == CLASHING_PLAN && IsPortName(p.networks.Keys, n)
    ensures PortAt(p, n) in CLASHING_PORTS && OwnerOf(PortAt(p, n)) == n
  {
    match n
    case Fixed(f) => FixedPortAt(p, f);
    case OfNetwork(k, network) => NetworkPortAt(p, k, network);
  }

  /** Its ports are all different, so it is never refused. */
  lemma ClashingPorts(p: PortPlan)
    requires p == CLASHING_PLAN
    ensures PortSet(p) <= CLASHING_PORTS && {5173, 8091} <= PortSet(p) && !HasDuplicates(p)
  {
    forall q | q in PortSet(p) ensures q in CLASHING_PORTS {
      PortSetMember(p, q);
      var n :| IsPortName(p.networks.Keys, n) && PortAt(p, n) == q;
      ClashingPortAt(p, n);
    }
    assert "x" in p.networks.Keys;
    PlanHasPort(p, Fixed(LabFrontend));
    PlanHasPort(p, OfNetwork(CBTAPI, "x"));
    forall a, b | IsPortName(p.networks.Keys, a) && IsPortName(p.networks.Keys, b) && PortAt(p, a) == PortAt(p, b)
      ensures a == b
    {
      ClashingPortAt(p, a);
      ClashingPortAt(p, b);
    }
  }

  // ---- One order of the networks hides port 8091 ----

  const ORDER: seq<string> := ["x", "api-x"]

  /** The network gone through last has its own port under each of its keys that no later name of it shares. */
  lemma ServiceOfLast(p: PortPlan, ports: map<string, int>)
    requires p == CLASHING_PLAN
    ensures var named := AddNames(p, ports, NetworkNames("api-x"));
      "cbt-api-x" in named && named["cbt-api-x"] == 8084
  {
    var names := NetworkNames("api-x");
    assert names[..1] == [OfNetwork(CBT, "api-x")] && names[..1][..0] == [];
    var one := AddNames(p, ports, names[..1]);
    assert Label(OfNetwork(CBT, "api-x")) == "cbt-api-x";
    assert one["cbt-api-x"] == 8084;
    KeyStays(p, ports, names, 1, "cbt-api-x", 8084);
  }

  lemma {:induction false} KeyStays(
      p: PortPlan, ports: map<string, int>, names: seq<PortName>, i: nat, key: string, value: int)
    requires i <= |names| && key in AddNames(p, ports, names[..i]) && AddNames(p, ports, names[..i])[key] == value
    requires forall k | i <= k < |names| :: Label(names[k]) != key
    ensures key in AddNames(p, ports, names) && AddNames(p, ports, names)[key] == value
    decreases |names| - i
  {
    if i == |names| {
      assert names[..i] == names;
    } else {
      assert names[..i + 1][..i] == names[..i];
      KeyStays(p, ports, names, i + 1, key, value);
    }
  }

  lemma NowhereElse(p: PortPlan, named: map<string, int>)
    requires p == CLASHING_PLAN && IsNamedPorts(p, named) && "cbt-api-x" in named && named["cbt-api-x"] == 8084
    ensures 8091 !in Positive(named)
  {
    NamedPortsKeyed(p, named);
    forall k | k in named ensures named[k] != 8091 {
      var n :| IsPortName(p.networks.Keys, n) && Label(n) == k && PortAt(p, n) == named[k];
      ClashingPortAt(p, n);
      assert Label(OfNetwork(CBTAPI, "x")) == "cbt-api-x";
    }
  }

  lemma HiddenPort() returns (named: map<string, int>)
    ensures IsNamedPorts(CLASHING_PLAN, named) && 8091 !in Positive(named) && 5173 in Positive(named)
  {
    var p := CLASHING_PLAN;
    assert ORDER[..1] == ["x"];
    assert IsOrder(p.networks.Keys, ORDER);
    named := NamedInOrder(p, ORDER);
    ServiceOfLast(p, NamedInOrder(p, ORDER[..1]));
    NowhereElse(p, named);
    FrontendListed(p, named);
  }

  lemma ListedAmong(named: map<string, int>)
    requires IsNamedPorts(CLASHING_PLAN, named)
    ensures Positive(named) <= CLASHING_PORTS
  {
    ListedBelongs(CLASHING_PLAN, named);
    ClashingPorts(CLASHING_PLAN);
  }

  lemma FrontendListed(p: PortPlan, named: map<string, int>)
    requires p == CLASHING_PLAN && IsNamedPorts(p, named)
    ensures 5173 in Positive(named)
  {
    NamedPortsKeyed(p, named);
    var key := Label(Fixed(LabFrontend));
    assert IsPortName(p.networks.Keys, Fixed(LabFrontend)) && key in named;
    var n :| IsPortName(p.networks.Keys, n) && Label(n) == key && PortAt(p, n) == named[key];
    match n
    case Fixed(f) => FieldLabelsDistinct(f, LabFrontend);
    case OfNetwork(k, network) => FieldsAreNotNetworks(LabFrontend, k, network);
  }

  // ---- The second lab takes it ----

  const MOVED_PORTS: set<int> := {
    8091, 6173, 20280, 9123, 10000, 9124, 10001, 9125, 10002, 9126, 10003, 7380, 10090, 4000}

  lemma MovedIsSafe()
    ensures EnabledNetworks(MOVED) == [] && NamesSafe(MOVED) && BasePortsPositive(MOVED)
    ensures forall slot :: PlanFor(MOVED, slot) == FixedPlan(MOVED, slot)
  {
    assert NetworkNameSet(MOVED) == {};
    forall slot ensures PlanFor(MOVED, slot) == FixedPlan(MOVED, slot) {
    }
    forall n | IsPortName({}, n) ensures PortAt(PlanFor(MOVED, 0), n) > 0 {
      MovedPortAt(FixedPlan(MOVED, 0), 0, n.field);
    }
  }

  lemma MovedPortAt(p: PortPlan, slot: nat, f: Field)
    requires p == FixedPlan(MOVED, slot)
    ensures PortAt(p, Fixed(f)) > 0
    ensures slot == 1 ==> PortAt(p, Fixed(f)) in MOVED_PORTS
    ensures f == LabBackend ==> PortAt(p, Fixed(f)) == 7091 + slot * 1000
    ensures f == LabFrontend ==> PortAt(p, Fixed(f)) == 5173 + slot * 1000
    ensures FieldOf(PortAt(p, Fixed(f)) - slot * 1000) == f
  {
    match f
    case LabBackend => case LabFrontend => case CommandCenter =>
    case ClickHouseCBT01HTTP => case ClickHouseCBT01TCP => case ClickHouseCBT02HTTP => case ClickHouseCBT02TCP =>
    case ClickHouseXatu01HTTP => case ClickHouseXatu01TCP => case ClickHouseXatu02HTTP => case ClickHouseXatu02TCP =>
    case Redis => case Prometheus => case Grafana =>
  }

  function FieldOf(q: int): Field {
    if q == 7091 then LabBackend else if NameAt(q).Fixed? then NameAt(q).field else LabBackend
  }

  lemma MovedPorts(slot: nat)
    ensures !HasDuplicates(PlanFor(MOVED, slot))
    ensures {7091 + slot * 1000, 5173 + slot * 1000} <= PortSet(PlanFor(MOVED, slot))
    ensures slot == 1 ==> PortSet(PlanFor(MOVED, slot)) <= MOVED_PORTS
  {
    MovedIsSafe();
    var p := PlanFor(MOVED, slot);
    forall a, b | IsPortName(p.networks.Keys, a) && IsPortName(p.networks.Keys, b) && PortAt(p, a) == PortAt(p, b)
      ensures a == b
    {
      MovedPortAt(p, slot, a.field);
      MovedPortAt(p, slot, b.field);
    }
    MovedPortAt(p, slot, LabBackend);
    MovedPortAt(p, slot, LabFrontend);
    PlanHasPort(p, Fixed(LabBackend));
    PlanHasPort(p, Fixed(LabFrontend));
    forall q | q in PortSet(p) ensures slot == 1 ==> q in MOVED_PORTS {
      PortSetMember(p, q);
      var n :| IsPortName(p.networks.Keys, n) && PortAt(p, n) == q;
      MovedPortAt(p, slot, n.field);
    }
  }

  lemma JudgedOn(cfg: LabConfig, used: set<int>, slot: nat)
    requires !HasDuplicates(PlanFor(cfg, slot))
    ensures Judge(cfg, used, NO_PROBE, NEVER, slot) == if PortSet(PlanFor(cfg, slot)) * used == {} then Take else Pass
  {
    assert used + NO_PROBE(slot) == used;
  }

  lemma FoundAtOne(judge: nat -> Verdict, limit: nat)
    requires judge(0) == Pass && judge(1) == Take && limit > 1
    ensures FitAt(judge, Search(judge, 0, limit), limit) == Found(1)
  {
    SearchEndsAt(judge, 0, limit, 1);
  }

  lemma OnlyMissingShared(mine: set<int>, theirs: set<int>, ports: set<int>, used: set<int>, hidden: int)
    requires mine * theirs == {hidden} && ports <= mine && used <= theirs && hidden !in used
    ensures ports * used == {}
  {
    forall q | q in ports ensures q !in used {
      assert q in theirs ==> q in mine * theirs;
    }
  }

  /** The slot the second lab gets: its plan at slot 0 meets the first lab's, and at slot 1 only on the hidden port. */
  lemma MovedTakesSlotOne(used: set<int>, limit: nat)
    requires used <= CLASHING_PORTS && 5173 in used && 8091 !in used && limit > 1
    ensures FirstFit(MOVED, used, NO_PROBE, NEVER, limit) == Found(1)
  {
    MovedPorts(0);
    MovedPorts(1);
    assert 5173 in PortSet(PlanFor(MOVED, 0)) * used;
    OnlySharedPort();
    OnlyMissingShared(MOVED_PORTS, CLASHING_PORTS, PortSet(PlanFor(MOVED, 1)), used, 8091);
    JudgedOn(MOVED, used, 0);
    JudgedOn(MOVED, used, 1);
    FoundAtOne(Judging(MOVED, used, NO_PROBE, NEVER), limit);
  }

  lemma OnlySharedPort()
    ensures MOVED_PORTS * CLASHING_PORTS == {8091}
  {
  }
}
