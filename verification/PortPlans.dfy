/** Building the port plan of a lab at a slot (pkg/instance/ports.go). */
module PortPlans {
  import opened Common
  import opened Ports

  /** The first non-zero value, as withDefault picks it. */
  function WithDefault(values: seq<int>): int {
    if values == [] then 0 else if values[0] != 0 then values[0] else WithDefault(values[1..])
  }

  function EnabledNetworks(cfg: LabConfig): seq<NetworkConfig> {
    EnabledAmong(cfg.networks)
  }

  function EnabledAmong(networks: seq<NetworkConfig>): seq<NetworkConfig> {
    if networks == [] then [] else
      (if networks[0].enabled then [networks[0]] else []) + EnabledAmong(networks[1..])
  }

  const DEFAULT_PLAN := PortPlan(
    0, 8080, 5173, 8081, 8091, 8085, 9100, 9200,
    8125, 9002, 8125 + 1, 9002 + 1, 8123, 9000, 8123 + 1, 9000 + 1,
    6380, 9090, 3000, 19280, map[])

  /** The plan for a slot before its network entries are filled in. */
  function FixedPlan(cfg: LabConfig, slot: int): PortPlan {
    var offset := slot * PORT_STRIDE;
    var cbtHTTP := WithDefault([cfg.clickHouseCBTPort, DEFAULT_PLAN.clickHouseCBT01HTTP]);
    var xatuHTTP := WithDefault([cfg.clickHouseXatuPort, DEFAULT_PLAN.clickHouseXatu01HTTP]);
    PortPlan(
      slot,
      WithDefault([cfg.labBackend, DEFAULT_PLAN.labBackend]) + offset,
      WithDefault([cfg.labFrontend, DEFAULT_PLAN.labFrontend]) + offset,
      WithDefault([cfg.cbtBase, DEFAULT_PLAN.cbtBase]) + offset,
      WithDefault([cfg.cbtAPIBase, DEFAULT_PLAN.cbtAPIBase]) + offset,
      WithDefault([cfg.cbtFrontendBase, DEFAULT_PLAN.cbtFrontendBase]) + offset,
      DEFAULT_PLAN.cbtMetricsBase + offset,
      DEFAULT_PLAN.cbtAPIMetricsBase + offset,
      xatuHTTP + offset, DEFAULT_PLAN.clickHouseXatu01TCP + offset,
      xatuHTTP + 1 + offset, DEFAULT_PLAN.clickHouseXatu02TCP + offset,
      cbtHTTP + offset, DEFAULT_PLAN.clickHouseCBT01TCP + offset,
      cbtHTTP + 1 + offset, DEFAULT_PLAN.clickHouseCBT02TCP + offset,
      WithDefault([cfg.redisPort, cfg.redisSectionPort, DEFAULT_PLAN.redis]) + offset,
      WithDefault([cfg.prometheusPort, DEFAULT_PLAN.prometheus]) + offset,
      WithDefault([cfg.grafanaPort, DEFAULT_PLAN.grafana]) + offset,
      DEFAULT_PLAN.commandCenter + offset,
      map[])
  }

  function NetworkPlan(base: PortPlan, network: NetworkConfig, i: nat): NetworkPortPlan {
    NetworkPortPlan(
      base.cbtBase + network.portOffset,
      base.cbtAPIBase + network.portOffset,
      base.cbtFrontendBase + network.portOffset,
      base.cbtMetricsBase + i,
      base.cbtAPIMetricsBase + i)
  }

  /** Network entries for the first `n` enabled networks; a repeated name keeps its last entry. */
  function NetworkPlans(base: PortPlan, networks: seq<NetworkConfig>, n: nat): map<string, NetworkPortPlan>
    requires n <= |networks|
  {
    if n == 0 then map[]
    else NetworkPlans(base, networks, n - 1)[networks[n - 1].name := NetworkPlan(base, networks[n - 1], n - 1)]
  }

  function PlanFor(cfg: LabConfig, slot: int): PortPlan {
    var base := FixedPlan(cfg, slot);
    base.(networks := NetworkPlans(base, EnabledNetworks(cfg), |EnabledNetworks(cfg)|))
  }

  // ---- Which ports the configuration sets ----

  lemma FirstOfTwo(a: int, b: int)
    ensures WithDefault([a, b]) == if a != 0 then a else b
  {
    assert [a, b][1..] == [b] && WithDefault([b]) == if b != 0 then b else WithDefault([b][1..]);
  }

  lemma FirstOfThree(a: int, b: int, c: int)
    ensures WithDefault([a, b, c]) == if a != 0 then a else if b != 0 then b else c
  {
    assert [a, b, c][1..] == [b, c];
    FirstOfTwo(b, c);
  }

  /** A configured port is taken as it is, and each second ClickHouse HTTP port is the one after the first. */
  lemma TakesConfigured(cfg: LabConfig, slot: int)
    ensures var p, offset := PlanFor(cfg, slot), slot * 1000;
      && (cfg.labBackend != 0 ==> p.labBackend == cfg.labBackend + offset)
      && (cfg.labFrontend != 0 ==> p.labFrontend == cfg.labFrontend + offset)
      && (cfg.cbtBase != 0 ==> p.cbtBase == cfg.cbtBase + offset)
      && (cfg.cbtAPIBase != 0 ==> p.cbtAPIBase == cfg.cbtAPIBase + offset)
      && (cfg.cbtFrontendBase != 0 ==> p.cbtFrontendBase == cfg.cbtFrontendBase + offset)
      && (cfg.prometheusPort != 0 ==> p.prometheus == cfg.prometheusPort + offset)
      && (cfg.grafanaPort != 0 ==> p.grafana == cfg.grafanaPort + offset)
      && (cfg.clickHouseCBTPort != 0 ==> p.clickHouseCBT01HTTP == cfg.clickHouseCBTPort + offset)
      && (cfg.clickHouseXatuPort != 0 ==> p.clickHouseXatu01HTTP == cfg.clickHouseXatuPort + offset)
      && p.clickHouseCBT02HTTP == p.clickHouseCBT01HTTP + 1
      && p.clickHouseXatu02HTTP == p.clickHouseXatu01HTTP + 1
      && p.slot == slot
  {
    forall a, b ensures WithDefault([a, b]) == if a != 0 then a else b {
      FirstOfTwo(a, b);
    }
  }

  /** The Redis port of the infrastructure comes before that of its own section. */
  lemma TakesRedis(cfg: LabConfig, slot: int)
    ensures var p, offset := PlanFor(cfg, slot), slot * 1000;
      && (cfg.redisPort != 0 ==> p.redis == cfg.redisPort + offset)
      && (cfg.redisPort == 0 && cfg.redisSectionPort != 0 ==> p.redis == cfg.redisSectionPort + offset)
      && (cfg.redisPort == 0 == cfg.redisSectionPort ==> p.redis == 6380 + offset)
  {
    FirstOfThree(cfg.redisPort, cfg.redisSectionPort, DEFAULT_PLAN.redis);
  }

  /** A port that is not configured, or cannot be, has its default. */
  lemma TakesDefaults(cfg: LabConfig, slot: int)
    ensures var p, offset := PlanFor(cfg, slot), slot * 1000;
      && (cfg.labBackend == 0 ==> p.labBackend == 8080 + offset)
      && (cfg.labFrontend == 0 ==> p.labFrontend == 5173 + offset)
      && (cfg.cbtBase == 0 ==> p.cbtBase == 8081 + offset)
      && (cfg.cbtAPIBase == 0 ==> p.cbtAPIBase == 8091 + offset)
      && (cfg.cbtFrontendBase == 0 ==> p.cbtFrontendBase == 8085 + offset)
      && (cfg.prometheusPort == 0 ==> p.prometheus == 9090 + offset)
      && (cfg.grafanaPort == 0 ==> p.grafana == 3000 + offset)
      && (cfg.clickHouseCBTPort == 0 ==> p.clickHouseCBT01HTTP == 8123 + offset)
      && (cfg.clickHouseXatuPort == 0 ==> p.clickHouseXatu01HTTP == 8125 + offset)
      && p.clickHouseCBT01TCP == 9000 + offset && p.clickHouseCBT02TCP == 9001 + offset
      && p.clickHouseXatu01TCP == 9002 + offset && p.clickHouseXatu02TCP == 9003 + offset
      && p.cbtMetricsBase == 9100 + offset && p.cbtAPIMetricsBase == 9200 + offset
      && p.commandCenter == 19280 + offset
  {
    forall a, b ensures WithDefault([a, b]) == if a != 0 then a else b {
      FirstOfTwo(a, b);
    }
  }

  lemma {:induction false} NetworkTakesAmong(base: PortPlan, networks: seq<NetworkConfig>, n: nat, i: nat)
    requires i < n <= |networks| && forall j | i < j < n :: networks[j].name != networks[i].name
    ensures networks[i].name in NetworkPlans(base, networks, n)
    ensures NetworkPlans(base, networks, n)[networks[i].name] == NetworkPlan(base, networks[i], i)
  {
    if i < n - 1 { NetworkTakesAmong(base, networks, n - 1, i); }
  }

  /** An enabled network's services stand at its offset from their bases, its metrics at its place among the enabled. */
  lemma NetworkTakes(cfg: LabConfig, slot: int, i: nat)
    requires var enabled := EnabledNetworks(cfg);
      i < |enabled| && forall j | i < j < |enabled| :: enabled[j].name != enabled[i].name
    ensures var p, network := PlanFor(cfg, slot), EnabledNetworks(cfg)[i];
      && network.name in p.networks
      && p.networks[network.name].cbt == p.cbtBase + network.portOffset
      && p.networks[network.name].cbtAPI == p.cbtAPIBase + network.portOffset
      && p.networks[network.name].cbtFrontend == p.cbtFrontendBase + network.portOffset
      && p.networks[network.name].cbtMetrics == p.cbtMetricsBase + i
      && p.networks[network.name].cbtAPIMetrics == p.cbtAPIMetricsBase + i
  {
    NetworkTakesAmong(FixedPlan(cfg, slot), EnabledNetworks(cfg), |EnabledNetworks(cfg)|, i);
  }

  function CountEnabled(networks: seq<NetworkConfig>): nat {
    if networks == [] then 0 else (if networks[0].enabled then 1 else 0) + CountEnabled(networks[1..])
  }

  /** The enabled networks keep their order: each stands behind as many as are enabled before it. */
  lemma {:induction false} EnabledAt(networks: seq<NetworkConfig>, i: nat)
    requires i < |networks| && networks[i].enabled
    ensures CountEnabled(networks[..i]) < |EnabledAmong(networks)| == CountEnabled(networks)
    ensures EnabledAmong(networks)[CountEnabled(networks[..i])] == networks[i]
  {
    EnabledLength(networks);
    if i > 0 {
      EnabledAt(networks[1..], i - 1);
      assert networks[..i][1..] == networks[1..][..i - 1];
    }
  }

  lemma {:induction false} EnabledLength(networks: seq<NetworkConfig>)
    ensures |EnabledAmong(networks)| == CountEnabled(networks)
  {
    if networks != [] { EnabledLength(networks[1..]); }
  }

  function NetworkNameSet(cfg: LabConfig): set<string> {
    set n | n in EnabledNetworks(cfg) :: n.name
  }

  /** The configured networks never share a port key. */
  ghost predicate NamesSafe(cfg: LabConfig) {
    !NetworksClash(NetworkNameSet(cfg))
  }

  /** Fails for ports listed twice; `named` is the listing it looked at. */
  method BuildPortPlan(cfg: Option<LabConfig>, slot: int)
    returns (r: Result<PortPlan, PlanError>, ghost named: map<string, int>)
    ensures cfg.None? ==> r == Err(MissingConfig)
    ensures cfg.Some? && slot < 0 ==> r == Err(NegativeSlot)
    ensures cfg.Some? && slot >= 0 ==>
      && IsNamedPorts(PlanFor(cfg.value, slot), named)
      && (Repeats(named) ==> r.Err? && r.error.DuplicatePorts? && ListsRepeated(named, r.error.ports))
      && (!Repeats(named) ==> r == Ok(PlanFor(cfg.value, slot)))
  {
    named := map[];
    if cfg.None? { return Err(MissingConfig), named; }
    if slot < 0 { return Err(NegativeSlot), named; }
    var base := FixedPlan(cfg.value, slot);
    var enabled := EnabledNetworks(cfg.value);
    var plan := base;
    for i := 0 to |enabled|
      invariant plan == base.(networks := NetworkPlans(base, enabled, i))
    {
      plan := plan.(networks := plan.networks[enabled[i].name := NetworkPlan(base, enabled[i], i)]);
    }
    var duplicates;
    duplicates, named := DuplicatesOf(plan);
    if |duplicates| > 0 { return Err(DuplicatePorts(duplicates)), named; }
    return Ok(plan), named;
  }

  /** The names of a safe lab's plan tell its ports apart. */
  lemma SafePlan(cfg: LabConfig, slot: int)
    requires NamesSafe(cfg)
    ensures LabelsDistinct(PlanFor(cfg, slot).networks.Keys)
  {
    PlanNetworks(cfg, slot);
    LabelsDistinctIffNoClash(PlanFor(cfg, slot).networks.Keys);
  }

  /** With names that do not clash, a plan is refused exactly when two of its names carry the same port. */
  lemma RefusedIffDuplicates(cfg: LabConfig, slot: int, named: map<string, int>)
    requires NamesSafe(cfg) && IsNamedPorts(PlanFor(cfg, slot), named)
    ensures Repeats(named) <==> HasDuplicates(PlanFor(cfg, slot))
    ensures Positive(named) == PortSet(PlanFor(cfg, slot))
  {
    PlanNetworks(cfg, slot);
    LabelsDistinctIffNoClash(PlanFor(cfg, slot).networks.Keys);
    SafeListing(PlanFor(cfg, slot), named);
  }

  lemma {:induction false} NetworkPlansKeys(base: PortPlan, networks: seq<NetworkConfig>, n: nat)
    requires n <= |networks|
    ensures NetworkPlans(base, networks, n).Keys == set x | x in networks[..n] :: x.name
  {
    if n == 0 {
    } else {
      NetworkPlansKeys(base, networks, n - 1);
      assert networks[..n] == networks[..n - 1] + [networks[n - 1]];
    }
  }

  /** Every slot's plan names the same networks. */
  lemma PlanNetworks(cfg: LabConfig, slot: int)
    ensures PlanFor(cfg, slot).networks.Keys == NetworkNameSet(cfg)
  {
    var enabled := EnabledNetworks(cfg);
    NetworkPlansKeys(FixedPlan(cfg, slot), enabled, |enabled|);
    assert enabled[..|enabled|] == enabled;
  }

  // ---- The plan at a slot is the plan at slot 0, shifted ----

  lemma {:induction false} NetworkPlansShift(cfg: LabConfig, slot: int, n: nat, network: string, k: NetworkKind)
    requires n <= |EnabledNetworks(cfg)|
    requires network in NetworkPlans(FixedPlan(cfg, slot), EnabledNetworks(cfg), n)
    ensures network in NetworkPlans(FixedPlan(cfg, 0), EnabledNetworks(cfg), n)
    ensures KindPort(NetworkPlans(FixedPlan(cfg, slot), EnabledNetworks(cfg), n)[network], k)
         == KindPort(NetworkPlans(FixedPlan(cfg, 0), EnabledNetworks(cfg), n)[network], k) + slot * PORT_STRIDE
  {
    if EnabledNetworks(cfg)[n - 1].name == network {
    } else {
      NetworkPlansShift(cfg, slot, n - 1, network, k);
    }
  }

  /** Port by port, slot `slot` adds `1000 * slot` to slot 0. */
  lemma PlanShift(cfg: LabConfig, slot: int, n: PortName)
    requires IsPortName(NetworkNameSet(cfg), n)
    ensures PortAt(PlanFor(cfg, slot), n) == PortAt(PlanFor(cfg, 0), n) + slot * PORT_STRIDE
  {
    PlanNetworks(cfg, slot);
    PlanNetworks(cfg, 0);
    match n
    case Fixed(f) =>
      match f {
        case LabBackend => case LabFrontend => case CommandCenter =>
        case ClickHouseCBT01HTTP => case ClickHouseCBT01TCP => case ClickHouseCBT02HTTP => case ClickHouseCBT02TCP =>
        case ClickHouseXatu01HTTP => case ClickHouseXatu01TCP =>
        case ClickHouseXatu02HTTP => case ClickHouseXatu02TCP =>
        case Redis => case Prometheus => case Grafana =>
      }
    case OfNetwork(k, network) =>
      NetworkPlansShift(cfg, slot, |EnabledNetworks(cfg)|, network, k);
  }

  /** Every port of the slot-0 plan is positive, so none is dropped. */
  ghost predicate BasePortsPositive(cfg: LabConfig) {
    forall n | IsPortName(NetworkNameSet(cfg), n) :: PortAt(PlanFor(cfg, 0), n) > 0
  }

  ghost function Shifted(ports: set<int>, slot: int): set<int> {
    set q | q in ports :: q + slot * PORT_STRIDE
  }

  /** The ports of every slot are slot 0's shifted exactly when no slot-0 port is dropped. */
  lemma PortSetShift(cfg: LabConfig)
    ensures BasePortsPositive(cfg) <==>
      forall slot: nat :: PortSet(PlanFor(cfg, slot)) == Shifted(PortSet(PlanFor(cfg, 0)), slot)
  {
    if BasePortsPositive(cfg) {
      forall slot: nat ensures PortSet(PlanFor(cfg, slot)) == Shifted(PortSet(PlanFor(cfg, 0)), slot) {
        PortSetShiftAt(cfg, slot);
      }
    } else {
      var n :| IsPortName(NetworkNameSet(cfg), n) && PortAt(PlanFor(cfg, 0), n) <= 0;
      var slot: nat := 1 - PortAt(PlanFor(cfg, 0), n);
      DroppedPortReappears(cfg, n);
      assert PortSet(PlanFor(cfg, slot)) != Shifted(PortSet(PlanFor(cfg, 0)), slot);
    }
  }

  lemma PortSetShiftAt(cfg: LabConfig, slot: nat)
    requires BasePortsPositive(cfg)
    ensures PortSet(PlanFor(cfg, slot)) == Shifted(PortSet(PlanFor(cfg, 0)), slot)
  {
    PlanNetworks(cfg, slot);
    PlanNetworks(cfg, 0);
    forall q ensures q in PortSet(PlanFor(cfg, slot)) <==> q in Shifted(PortSet(PlanFor(cfg, 0)), slot) {
      PortSetMember(PlanFor(cfg, slot), q);
      PortSetMember(PlanFor(cfg, 0), q - slot * PORT_STRIDE);
      if q in PortSet(PlanFor(cfg, slot)) {
        var n :| IsPortName(NetworkNameSet(cfg), n) && PortAt(PlanFor(cfg, slot), n) == q;
        PlanShift(cfg, slot, n);
        assert q - slot * PORT_STRIDE in PortSet(PlanFor(cfg, 0));
      }
      if q in Shifted(PortSet(PlanFor(cfg, 0)), slot) {
        var n :| IsPortName(NetworkNameSet(cfg), n) && PortAt(PlanFor(cfg, 0), n) == q - slot * PORT_STRIDE;
        PlanShift(cfg, slot, n);
      }
    }
  }

  lemma DroppedPortReappears(cfg: LabConfig, n: PortName)
    requires IsPortName(NetworkNameSet(cfg), n) && PortAt(PlanFor(cfg, 0), n) <= 0
    ensures var slot := 1 - PortAt(PlanFor(cfg, 0), n);
            PortSet(PlanFor(cfg, slot)) != Shifted(PortSet(PlanFor(cfg, 0)), slot)
  {
    var q := PortAt(PlanFor(cfg, 0), n);
    PlanShift(cfg, 1 - q, n);
    PlanNetworks(cfg, 1 - q);
    DroppedPortDiffers(PlanFor(cfg, 0), PlanFor(cfg, 1 - q), n, 1 - q);
  }

  lemma DroppedPortDiffers(first: PortPlan, later: PortPlan, n: PortName, slot: int)
    requires IsPortName(later.networks.Keys, n) && PortAt(first, n) <= 0 && slot == 1 - PortAt(first, n)
    requires PortAt(later, n) == PortAt(first, n) + slot * PORT_STRIDE
    ensures PortSet(later) != Shifted(PortSet(first), slot)
  {
    PortSetMember(later, PortAt(later, n));
    PortSetMember(first, PortAt(first, n));
    assert PortAt(later, n) in PortSet(later);
    assert PortAt(later, n) - slot * PORT_STRIDE !in PortSet(first);
  }

  /** A clash of ports at one slot stays at every later slot, dropped ports or not. */
  lemma DuplicatesPersist(cfg: LabConfig, slot: nat, later: nat)
    requires slot <= later && HasDuplicates(PlanFor(cfg, slot))
    ensures HasDuplicates(PlanFor(cfg, later))
  {
    PlanNetworks(cfg, slot);
    PlanNetworks(cfg, later);
    var a, b :| IsPortName(NetworkNameSet(cfg), a) && IsPortName(NetworkNameSet(cfg), b) && a != b
                && PortAt(PlanFor(cfg, slot), a) == PortAt(PlanFor(cfg, slot), b) > 0;
    PlanShift(cfg, slot, a);
    PlanShift(cfg, slot, b);
    PlanShift(cfg, later, a);
    PlanShift(cfg, later, b);
  }

  /** With no dropped port, duplicates occur at every slot or at none. */
  lemma DuplicatesAtEverySlotOrNone(cfg: LabConfig, slot: nat)
    requires BasePortsPositive(cfg)
    ensures HasDuplicates(PlanFor(cfg, slot)) <==> HasDuplicates(PlanFor(cfg, 0))
  {
    if HasDuplicates(PlanFor(cfg, slot)) {
      PlanNetworks(cfg, slot);
      PlanNetworks(cfg, 0);
      var a, b :| IsPortName(NetworkNameSet(cfg), a) && IsPortName(NetworkNameSet(cfg), b) && a != b
                  && PortAt(PlanFor(cfg, slot), a) == PortAt(PlanFor(cfg, slot), b) > 0;
      PlanShift(cfg, slot, a);
      PlanShift(cfg, slot, b);
    }
    if HasDuplicates(PlanFor(cfg, 0)) {
      DuplicatesPersist(cfg, 0, slot);
    }
  }
}
