/**
 * The port plan of a lab instance (pkg/instance/ports.go).
 *
 * A plan's ports are addressed by structured names; `Label` renders a name as the
 * string the source uses for a map key.  Two networks can render to the same key, and
 * which port such a key holds then depends on the iteration order of the networks:
 * `IsNamedPorts` says what NamedPorts may return, and everything built on it is exact
 * about the result it got.  `LabelsDistinctIffNoClash` says when the order does not matter.
 */
module Ports {
  import opened Common

  const PORT_STRIDE := 1000

  datatype NetworkConfig = NetworkConfig(name: string, enabled: bool, portOffset: int)

  datatype LabConfig = LabConfig(
    clickHouseCBTPort: int, clickHouseXatuPort: int,
    redisPort: int, redisSectionPort: int,
    prometheusPort: int, grafanaPort: int,
    labBackend: int, labFrontend: int,
    cbtBase: int, cbtAPIBase: int, cbtFrontendBase: int,
    networks: seq<NetworkConfig>)

  datatype NetworkPortPlan = NetworkPortPlan(
    cbt: int, cbtAPI: int, cbtFrontend: int, cbtMetrics: int, cbtAPIMetrics: int)

  datatype PortPlan = PortPlan(
    slot: int,
    labBackend: int, labFrontend: int,
    cbtBase: int, cbtAPIBase: int, cbtFrontendBase: int,
    cbtMetricsBase: int, cbtAPIMetricsBase: int,
    clickHouseXatu01HTTP: int, clickHouseXatu01TCP: int,
    clickHouseXatu02HTTP: int, clickHouseXatu02TCP: int,
    clickHouseCBT01HTTP: int, clickHouseCBT01TCP: int,
    clickHouseCBT02HTTP: int, clickHouseCBT02TCP: int,
    redis: int, prometheus: int, grafana: int, commandCenter: int,
    networks: map<string, NetworkPortPlan>)

  datatype PlanError = MissingConfig | NegativeSlot | DuplicatePorts(ports: seq<int>)

  // ---- Names and values of the ports of a plan ----

  datatype Field =
    | LabBackend | LabFrontend | CommandCenter
    | ClickHouseCBT01HTTP | ClickHouseCBT01TCP | ClickHouseCBT02HTTP | ClickHouseCBT02TCP
    | ClickHouseXatu01HTTP | ClickHouseXatu01TCP | ClickHouseXatu02HTTP | ClickHouseXatu02TCP
    | Redis | Prometheus | Grafana

  function FieldLabel(f: Field): string {
    match f
    case LabBackend => "lab-backend"
    case LabFrontend => "lab-frontend"
    case CommandCenter => "command-center"
    case ClickHouseCBT01HTTP => "clickhouse-cbt-01-http"
    case ClickHouseCBT01TCP => "clickhouse-cbt-01-native"
    case ClickHouseCBT02HTTP => "clickhouse-cbt-02-http"
    case ClickHouseCBT02TCP => "clickhouse-cbt-02-native"
    case ClickHouseXatu01HTTP => "clickhouse-xatu-01-http"
    case ClickHouseXatu01TCP => "clickhouse-xatu-01-native"
    case ClickHouseXatu02HTTP => "clickhouse-xatu-02-http"
    case ClickHouseXatu02TCP => "clickhouse-xatu-02-native"
    case Redis => "redis"
    case Prometheus => "prometheus"
    case Grafana => "grafana"
  }

  function FieldPort(p: PortPlan, f: Field): int {
    match f
    case LabBackend => p.labBackend
    case LabFrontend => p.labFrontend
    case CommandCenter => p.commandCenter
    case ClickHouseCBT01HTTP => p.clickHouseCBT01HTTP
    case ClickHouseCBT01TCP => p.clickHouseCBT01TCP
    case ClickHouseCBT02HTTP => p.clickHouseCBT02HTTP
    case ClickHouseCBT02TCP => p.clickHouseCBT02TCP
    case ClickHouseXatu01HTTP => p.clickHouseXatu01HTTP
    case ClickHouseXatu01TCP => p.clickHouseXatu01TCP
    case ClickHouseXatu02HTTP => p.clickHouseXatu02HTTP
    case ClickHouseXatu02TCP => p.clickHouseXatu02TCP
    case Redis => p.redis
    case Prometheus => p.prometheus
    case Grafana => p.grafana
  }

  datatype NetworkKind = CBT | CBTAPI | CBTFrontend | CBTMetrics | CBTAPIMetrics

  function KindPrefix(k: NetworkKind): string {
    match k
    case CBT => "cbt-"
    case CBTAPI => "cbt-api-"
    case CBTFrontend => "cbt-frontend-"
    case CBTMetrics => "cbt-metrics-"
    case CBTAPIMetrics => "cbt-api-metrics-"
  }

  function KindPort(n: NetworkPortPlan, k: NetworkKind): int {
    match k
    case CBT => n.cbt
    case CBTAPI => n.cbtAPI
    case CBTFrontend => n.cbtFrontend
    case CBTMetrics => n.cbtMetrics
    case CBTAPIMetrics => n.cbtAPIMetrics
  }

  datatype PortName = Fixed(field: Field) | OfNetwork(kind: NetworkKind, network: string)

  function Label(n: PortName): string {
    match n
    case Fixed(f) => FieldLabel(f)
    case OfNetwork(k, network) => KindPrefix(k) + network
  }

  const FIXED_NAMES: seq<PortName> := [
    Fixed(LabBackend), Fixed(LabFrontend), Fixed(CommandCenter),
    Fixed(ClickHouseCBT01HTTP), Fixed(ClickHouseCBT01TCP), Fixed(ClickHouseCBT02HTTP), Fixed(ClickHouseCBT02TCP),
    Fixed(ClickHouseXatu01HTTP), Fixed(ClickHouseXatu01TCP), Fixed(ClickHouseXatu02HTTP), Fixed(ClickHouseXatu02TCP),
    Fixed(Redis), Fixed(Prometheus), Fixed(Grafana)]

  const ALL_KINDS: set<NetworkKind> := {CBT, CBTAPI, CBTFrontend, CBTMetrics, CBTAPIMetrics}

  function NetworkNames(network: string): seq<PortName> {
    [OfNetwork(CBT, network), OfNetwork(CBTAPI, network), OfNetwork(CBTFrontend, network),
     OfNetwork(CBTMetrics, network), OfNetwork(CBTAPIMetrics, network)]
  }

  ghost function PortNames(networks: set<string>): set<PortName> {
    Elements(FIXED_NAMES) + (set network, k | network in networks && k in ALL_KINDS :: OfNetwork(k, network))
  }

  lemma PortNamesMember(networks: set<string>, n: PortName)
    ensures n in PortNames(networks) <==> IsPortName(networks, n)
  {
    NamesComplete();
    if n.OfNetwork? {
      match n.kind case CBT => case CBTAPI => case CBTFrontend => case CBTMetrics => case CBTAPIMetrics =>
    }
  }

  predicate IsPortName(networks: set<string>, n: PortName) {
    n.OfNetwork? ==> n.network in networks
  }

  lemma NamesComplete()
    ensures forall n :: n in FIXED_NAMES <==> n.Fixed?
    ensures forall n, network :: n in NetworkNames(network) <==> n.OfNetwork? && n.network == network
  {
    forall n ensures n in FIXED_NAMES <==> n.Fixed? {
      if n.Fixed? {
        FieldIsListed(n.field);
      }
    }
    forall n, network ensures n in NetworkNames(network) <==> n.OfNetwork? && n.network == network {
      if n.OfNetwork? && n.network == network {
        var i := match n.kind
          case CBT => 0 case CBTAPI => 1 case CBTFrontend => 2 case CBTMetrics => 3 case CBTAPIMetrics => 4;
        assert NetworkNames(network)[i] == n;
      }
    }
  }

  lemma FieldIsListed(f: Field)
    ensures Fixed(f) in FIXED_NAMES
  {
    match f
    case LabBackend => assert FIXED_NAMES[0] == Fixed(f);
    case LabFrontend => assert FIXED_NAMES[1] == Fixed(f);
    case CommandCenter => assert FIXED_NAMES[2] == Fixed(f);
    case ClickHouseCBT01HTTP => assert FIXED_NAMES[3] == Fixed(f);
    case ClickHouseCBT01TCP => assert FIXED_NAMES[4] == Fixed(f);
    case ClickHouseCBT02HTTP => assert FIXED_NAMES[5] == Fixed(f);
    case ClickHouseCBT02TCP => assert FIXED_NAMES[6] == Fixed(f);
    case ClickHouseXatu01HTTP => assert FIXED_NAMES[7] == Fixed(f);
    case ClickHouseXatu01TCP => assert FIXED_NAMES[8] == Fixed(f);
    case ClickHouseXatu02HTTP => assert FIXED_NAMES[9] == Fixed(f);
    case ClickHouseXatu02TCP => assert FIXED_NAMES[10] == Fixed(f);
    case Redis => assert FIXED_NAMES[11] == Fixed(f);
    case Prometheus => assert FIXED_NAMES[12] == Fixed(f);
    case Grafana => assert FIXED_NAMES[13] == Fixed(f);
  }

  function PortAt(p: PortPlan, n: PortName): int
  {
    match n
    case Fixed(f) => FieldPort(p, f)
    case OfNetwork(k, network) => if network in p.networks then KindPort(p.networks[network], k) else 0
  }

  /** Every port the plan stands for, the positive ones only. */
  ghost function PortSet(p: PortPlan): set<int> {
    set n | n in PortNames(p.networks.Keys) && IsPortName(p.networks.Keys, n) && PortAt(p, n) > 0 :: PortAt(p, n)
  }

  ghost predicate HasDuplicates(p: PortPlan) {
    exists a, b :: IsPortName(p.networks.Keys, a) && IsPortName(p.networks.Keys, b) && a != b
                   && PortAt(p, a) == PortAt(p, b) > 0
  }

  // ---- When the string keys tell the ports apart ----

  ghost predicate LabelsDistinct(networks: set<string>) {
    forall a, b | IsPortName(networks, a) && IsPortName(networks, b) && Label(a) == Label(b) :: a == b
  }

  const CLASH_PREFIXES: seq<string> := ["api-", "frontend-", "metrics-", "api-metrics-"]

  /** One network is named like another with a service prefix in front. */
  ghost predicate NetworksClash(networks: set<string>) {
    exists a, b :: a in networks && b in networks && Prefixed(a, b)
  }

  ghost predicate Prefixed(a: string, b: string) {
    exists s :: s in CLASH_PREFIXES && b == s + a
  }

  lemma SplitEqual(p: string, a: string, q: string, b: string)
    requires p + a == q + b && |p| <= |q|
    ensures p == q[..|p|] && a == q[|p|..] + b
  {
    assert p == (p + a)[..|p|];
    assert (q + b)[..|p|] == q[..|p|];
    assert a == (p + a)[|p|..];
    assert (q + b)[|p|..] == q[|p|..] + b;
  }

  lemma KindPrefixesOverlap(k: NetworkKind, l: NetworkKind, a: string, b: string)
    requires KindPrefix(k) + a == KindPrefix(l) + b && k != l && |KindPrefix(k)| <= |KindPrefix(l)|
    ensures Prefixed(b, a)
  {
    var p, q := KindPrefix(k), KindPrefix(l);
    SplitEqual(p, a, q, b);
    assert p[|p| - 1] == q[|p| - 1];
    assert |p| > 7 ==> p[7] == q[7];
    var s := q[|p|..];
    if k == CBT {
      assert l == CBTAPI ==> s == "api-";
      assert l == CBTFrontend ==> s == "frontend-";
      assert l == CBTMetrics ==> s == "metrics-";
      assert l == CBTAPIMetrics ==> s == "api-metrics-";
    } else {
      assert k == CBTAPI && l == CBTAPIMetrics;
      assert s == "metrics-";
    }
    assert s in CLASH_PREFIXES && a == s + b;
  }

  lemma FieldLabelsDistinct(f: Field, g: Field)
    requires FieldLabel(f) == FieldLabel(g)
    ensures f == g
  {
    var a, b := FieldLabel(f), FieldLabel(g);
    assert |a| == |b|;
    assert |a| > 15 ==> a[11] == b[11] && a[15] == b[15] && a[|a| - 1] == b[|b| - 1];
    assert |a| > 17 ==> a[14] == b[14] && a[15] == b[15] && a[16] == b[16];
    assert a[0] == b[0];
  }

  lemma FieldsAreNotNetworks(f: Field, k: NetworkKind, n: string)
    ensures FieldLabel(f) != KindPrefix(k) + n
  {
    var a := KindPrefix(k) + n;
    assert a[0] == 'c' && a[1] == 'b';
    var b := FieldLabel(f);
    assert b[0] != 'c' || b[1] != 'b';
  }

  /** The string keys determine every port exactly when no two networks clash. */
  lemma LabelsDistinctIffNoClash(networks: set<string>)
    ensures LabelsDistinct(networks) <==> !NetworksClash(networks)
  {
    if !NetworksClash(networks) {
      forall x, y | IsPortName(networks, x) && IsPortName(networks, y) && Label(x) == Label(y)
        ensures x == y
      {
        LabelDetermines(networks, x, y);
      }
    } else {
      var a, b :| a in networks && b in networks && Prefixed(a, b);
      var s :| s in CLASH_PREFIXES && b == s + a;
      var x, y := ClashSharesKey(networks, a, s);
    }
  }

  lemma ClashSharesKey(networks: set<string>, a: string, s: string) returns (x: PortName, y: PortName)
    requires a in networks && s in CLASH_PREFIXES && s + a in networks
    ensures IsPortName(networks, x) && IsPortName(networks, y) && x != y && Label(x) == Label(y)
  {
    var k := KindOfPrefix(s);
    x, y := OfNetwork(CBT, s + a), OfNetwork(k, a);
    assert Label(x) == ("cbt-" + s) + a == Label(y);
  }

  lemma KindOfPrefix(s: string) returns (k: NetworkKind)
    requires s in CLASH_PREFIXES
    ensures k != CBT && KindPrefix(k) == "cbt-" + s
  {
    k := if s == "api-" then CBTAPI else if s == "frontend-" then CBTFrontend
         else if s == "metrics-" then CBTMetrics else CBTAPIMetrics;
  }

  lemma LabelDetermines(networks: set<string>, x: PortName, y: PortName)
    requires !NetworksClash(networks)
    requires IsPortName(networks, x) && IsPortName(networks, y) && Label(x) == Label(y)
    ensures x == y
  {
    match (x, y)
    case (Fixed(f), Fixed(g)) => FieldLabelsDistinct(f, g);
    case (Fixed(f), OfNetwork(k, n)) => FieldsAreNotNetworks(f, k, n);
    case (OfNetwork(k, n), Fixed(f)) => FieldsAreNotNetworks(f, k, n);
    case (OfNetwork(k, n), OfNetwork(l, m)) =>
      if k == l {
        SplitEqual(KindPrefix(k), n, KindPrefix(l), m);
      } else if |KindPrefix(k)| <= |KindPrefix(l)| {
        KindPrefixesOverlap(k, l, n, m);
      } else {
        KindPrefixesOverlap(l, k, m, n);
      }
  }

  // ---- Listing the ports of a plan ----

  /**
   * Entering the ports of `names` into `ports`, one after another; a later one replaces an earlier one under its key.
   */
  function AddNames(p: PortPlan, ports: map<string, int>, names: seq<PortName>): map<string, int> {
    if names == [] then ports
    else
      var n := |names| - 1;
      AddNames(p, ports, names[..n])[Label(names[n]) := PortAt(p, names[n])]
  }

  function NamedInOrder(p: PortPlan, order: seq<string>): map<string, int> {
    if order == [] then AddNames(p, map[], FIXED_NAMES)
    else AddNames(p, NamedInOrder(p, order[..|order| - 1]), NetworkNames(order[|order| - 1]))
  }

  /** An order in which Go may go through the networks. */
  predicate IsOrder(networks: set<string>, order: seq<string>) {
    NoDuplicates(order) && Elements(order) == networks
  }

  /** A possible result of NamedPorts. */
  ghost predicate IsNamedPorts(p: PortPlan, ports: map<string, int>) {
    exists order :: IsOrder(p.networks.Keys, order) && ports == NamedInOrder(p, order)
  }

  /** `ports` holds a port of every name in `names` and nothing else. */
  ghost predicate Covers(p: PortPlan, names: set<PortName>, ports: map<string, int>) {
    && (forall n | n in names :: Label(n) in ports)
    && (forall k | k in ports :: exists n :: n in names && Label(n) == k && PortAt(p, n) == ports[k])
  }

  lemma CoversAdd(p: PortPlan, names: set<PortName>, ports: map<string, int>, n: PortName)
    requires Covers(p, names, ports)
    ensures Covers(p, names + {n}, ports[Label(n) := PortAt(p, n)])
  {
    var after := ports[Label(n) := PortAt(p, n)];
    forall k | k in after
      ensures exists m :: m in names + {n} && Label(m) == k && PortAt(p, m) == after[k]
    {
      if k == Label(n) {
        assert n in names + {n};
      } else {
        var m :| m in names && Label(m) == k && PortAt(p, m) == ports[k];
        assert m in names + {n};
      }
    }
  }

  lemma {:induction false} AddNamesCovers(
      p: PortPlan, ports: map<string, int>, before: set<PortName>, names: seq<PortName>)
    requires Covers(p, before, ports)
    ensures Covers(p, before + Elements(names), AddNames(p, ports, names))
  {
    if names == [] {
      assert before + Elements(names) == before;
    } else {
      var n := |names| - 1;
      AddNamesCovers(p, ports, before, names[..n]);
      CoversAdd(p, before + Elements(names[..n]), AddNames(p, ports, names[..n]), names[n]);
      assert names == names[..n] + [names[n]];
      assert before + Elements(names) == before + Elements(names[..n]) + {names[n]};
    }
  }

  lemma {:induction false} OrderCovers(p: PortPlan, order: seq<string>)
    ensures Covers(p, PortNames(Elements(order)), NamedInOrder(p, order))
  {
    if order == [] {
      FixedCovers(p);
      assert Elements(order) == {};
    } else {
      var n := |order| - 1;
      var before, last := order[..n], order[n];
      OrderCovers(p, before);
      NetworkCovers(p, Elements(before), last, NamedInOrder(p, before));
      assert order == before + [last];
      assert Elements(order) == Elements(before) + {last};
    }
  }

  lemma FixedCovers(p: PortPlan)
    ensures Covers(p, PortNames({}), AddNames(p, map[], FIXED_NAMES))
  {
    assert Covers(p, {}, map[]);
    AddNamesCovers(p, map[], {}, FIXED_NAMES);
    assert {} + Elements(FIXED_NAMES) == PortNames({});
  }

  lemma NetworkCovers(p: PortPlan, networks: set<string>, network: string, ports: map<string, int>)
    requires Covers(p, PortNames(networks), ports)
    ensures Covers(p, PortNames(networks + {network}), AddNames(p, ports, NetworkNames(network)))
  {
    AddNamesCovers(p, ports, PortNames(networks), NetworkNames(network));
    OneMoreNetwork(networks, network);
  }

  lemma OneMoreNetwork(networks: set<string>, network: string)
    ensures PortNames(networks + {network}) == PortNames(networks) + Elements(NetworkNames(network))
  {
    NamesComplete();
    forall n
      ensures n in PortNames(networks + {network}) <==> n in PortNames(networks) + Elements(NetworkNames(network))
    {
      PortNamesMember(networks + {network}, n);
      PortNamesMember(networks, n);
    }
  }

  /** Every name has a key, and every key holds a port of its own. */
  lemma NamedPortsKeyed(p: PortPlan, ports: map<string, int>)
    requires IsNamedPorts(p, ports)
    ensures forall n | IsPortName(p.networks.Keys, n) :: Label(n) in ports
    ensures forall k | k in ports :: exists n ::
      IsPortName(p.networks.Keys, n) && Label(n) == k && PortAt(p, n) == ports[k]
  {
    var order :| IsOrder(p.networks.Keys, order) && ports == NamedInOrder(p, order);
    OrderCovers(p, order);
    forall n ensures n in PortNames(p.networks.Keys) <==> IsPortName(p.networks.Keys, n) {
      PortNamesMember(p.networks.Keys, n);
    }
  }

  lemma {:induction false} SomeOrder(networks: set<string>) returns (order: seq<string>)
    ensures IsOrder(networks, order)
  {
    if networks == {} {
      order := [];
    } else {
      var network := Member(networks);
      order := SomeOrder(networks - {network});
      NoDuplicatesSnoc(order, network);
      assert Elements(order + [network]) == Elements(order) + {network};
      order := order + [network];
    }
  }

  /** One of the possible results. */
  ghost function SomeNamed(p: PortPlan): (ports: map<string, int>)
    ensures IsNamedPorts(p, ports)
  {
    OrderExists(p.networks.Keys);
    var order :| IsOrder(p.networks.Keys, order);
    NamedInOrder(p, order)
  }

  lemma OrderExists(networks: set<string>)
    ensures exists order :: IsOrder(networks, order)
  {
    var order := SomeOrder(networks);
  }

  lemma OrderSnoc(p: PortPlan, networks: set<string>, order: seq<string>, network: string)
    requires IsOrder(networks, order) && network !in networks
    ensures IsOrder(networks + {network}, order + [network])
    ensures NamedInOrder(p, order + [network]) == AddNames(p, NamedInOrder(p, order), NetworkNames(network))
  {
    NoDuplicatesSnoc(order, network);
    assert (order + [network])[..|order|] == order;
    assert Elements(order + [network]) == Elements(order) + {network};
  }

  /** The map iteration order of Go is arbitrary, and so is the choice of `network` here. */
  method NamedPorts(p: PortPlan) returns (ports: map<string, int>)
    ensures IsNamedPorts(p, ports)
  {
    ports := AddEach(p, map[], FIXED_NAMES);
    ghost var order: seq<string> := [];
    var remaining := p.networks.Keys;
    while remaining != {}
      invariant IsOrder(p.networks.Keys - remaining, order) && remaining <= p.networks.Keys
      invariant ports == NamedInOrder(p, order)
      decreases remaining
    {
      var network := AnyKey(remaining);
      ports := AddEach(p, ports, NetworkNames(network));
      OrderSnoc(p, p.networks.Keys - remaining, order, network);
      assert p.networks.Keys - (remaining - {network}) == p.networks.Keys - remaining + {network};
      order, remaining := order + [network], remaining - {network};
    }
  }

  method AddEach(p: PortPlan, ports: map<string, int>, names: seq<PortName>) returns (r: map<string, int>)
    ensures r == AddNames(p, ports, names)
  {
    r := ports;
    for i := 0 to |names|
      invariant r == AddNames(p, ports, names[..i])
    {
      assert names[..i + 1][..i] == names[..i];
      r := r[Label(names[i]) := PortAt(p, names[i])];
    }
    assert names[..|names|] == names;
  }

  /** The positive ports that a result of NamedPorts holds. */
  ghost function Positive(named: map<string, int>): set<int> {
    set k | k in named && named[k] > 0 :: named[k]
  }

  /** Two keys hold the same positive port. */
  ghost predicate Repeats(named: map<string, int>) {
    exists j, k :: j in named && k in named && j != k && named[j] == named[k] > 0
  }

  ghost function KeysAt(named: map<string, int>, keys: set<string>, q: int): set<string> {
    set k | k in keys && k in named && named[k] == q
  }

  /** `values` lists the value of every key in `keys`, once each. */
  ghost predicate Tally(named: map<string, int>, keys: set<string>, values: seq<int>) {
    forall q :: multiset(values)[q] == |KeysAt(named, keys, q)|
  }

  lemma TallyAdd(named: map<string, int>, keys: set<string>, values: seq<int>, key: string)
    requires Tally(named, keys, values) && key in named && key !in keys
    ensures Tally(named, keys + {key}, values + [named[key]])
  {
    forall q ensures multiset(values + [named[key]])[q] == |KeysAt(named, keys + {key}, q)| {
      assert KeysAt(named, keys + {key}, q) == KeysAt(named, keys, q) + if named[key] == q then {key} else {};
    }
  }

  /** `ports` lists the positive ports of `named`, one for every key. */
  ghost predicate ListsPorts(named: map<string, int>, ports: seq<int>) {
    forall q :: multiset(ports)[q] == if q > 0 then |KeysAt(named, named.Keys, q)| else 0
  }

  /** The positive ports of the names, ascending; `named` is the map it went through. */
  method AllPorts(p: PortPlan) returns (ports: seq<int>, ghost named: map<string, int>)
    ensures IsNamedPorts(p, named)
    ensures SortedInts(ports) && ListsPorts(named, ports) && Elements(ports) == Positive(named)
  {
    var all := NamedPorts(p);
    named := all;
    var values: seq<int> := [];
    var remaining := all.Keys;
    while remaining != {}
      invariant remaining <= all.Keys
      invariant Tally(all, all.Keys - remaining, values)
      decreases remaining
    {
      var key := AnyKey(remaining);
      TallyAdd(all, all.Keys - remaining, values, key);
      assert all.Keys - remaining + {key} == all.Keys - (remaining - {key});
      values := values + [all[key]];
      remaining := remaining - {key};
    }
    assert all.Keys - remaining == all.Keys;
    ports := SortInts(PositiveOnly(values));
    ListedArePositive(named, ports);
  }

  lemma ListedArePositive(named: map<string, int>, ports: seq<int>)
    requires ListsPorts(named, ports)
    ensures Elements(ports) == Positive(named)
  {
    forall q ensures q in ports <==> q in Positive(named) {
      assert q in ports <==> q in multiset(ports);
      if q in multiset(ports) {
        var k := Member(KeysAt(named, named.Keys, q));
      }
      if q in Positive(named) {
        var k :| k in named && named[k] > 0 && named[k] == q;
        assert k in KeysAt(named, named.Keys, q);
      }
    }
  }

  function PositiveOnly(values: seq<int>): (r: seq<int>)
    ensures forall q :: multiset(r)[q] == if q > 0 then multiset(values)[q] else 0
  {
    if values == [] then [] else
      var last := |values| - 1;
      assert values == values[..last] + [values[last]];
      PositiveOnly(values[..last]) + if values[last] > 0 then [values[last]] else []
  }

  // ---- When the listing is the plan ----

  /** Whatever the order, what is listed belongs to the plan, and what is listed twice the plan has twice. */
  lemma ListedBelongs(p: PortPlan, named: map<string, int>)
    requires IsNamedPorts(p, named)
    ensures Positive(named) <= PortSet(p)
    ensures Repeats(named) ==> HasDuplicates(p)
  {
    NamedPortsKeyed(p, named);
    forall q | q in Positive(named) ensures q in PortSet(p) {
      PortSetMember(p, q);
    }
    if j, k :| j in named && k in named && j != k && named[j] == named[k] > 0 {
      var m :| IsPortName(p.networks.Keys, m) && Label(m) == j && PortAt(p, m) == named[j];
      var n :| IsPortName(p.networks.Keys, n) && Label(n) == k && PortAt(p, n) == named[k];
      assert m != n && PortAt(p, m) == PortAt(p, n) > 0;
    }
  }

  lemma KeyOfName(p: PortPlan, named: map<string, int>, n: PortName)
    requires LabelsDistinct(p.networks.Keys) && IsNamedPorts(p, named) && IsPortName(p.networks.Keys, n)
    ensures Label(n) in named && named[Label(n)] == PortAt(p, n)
  {
    NamedPortsKeyed(p, named);
    var m :| IsPortName(p.networks.Keys, m) && Label(m) == Label(n) && PortAt(p, m) == named[Label(n)];
  }

  /** The keys of the services, and the ports under them. */
  lemma LabKeys(p: PortPlan, named: map<string, int>)
    requires LabelsDistinct(p.networks.Keys) && IsNamedPorts(p, named)
    ensures "lab-backend" in named && named["lab-backend"] == p.labBackend
    ensures "lab-frontend" in named && named["lab-frontend"] == p.labFrontend
    ensures "command-center" in named && named["command-center"] == p.commandCenter
  {
    KeyOfName(p, named, Fixed(LabBackend));
    KeyOfName(p, named, Fixed(LabFrontend));
    KeyOfName(p, named, Fixed(CommandCenter));
  }

  lemma ObservabilityKeys(p: PortPlan, named: map<string, int>)
    requires LabelsDistinct(p.networks.Keys) && IsNamedPorts(p, named)
    ensures "redis" in named && named["redis"] == p.redis
    ensures "prometheus" in named && named["prometheus"] == p.prometheus
    ensures "grafana" in named && named["grafana"] == p.grafana
  {
    KeyOfName(p, named, Fixed(Redis));
    KeyOfName(p, named, Fixed(Prometheus));
    KeyOfName(p, named, Fixed(Grafana));
  }

  lemma CBTKeys(p: PortPlan, named: map<string, int>)
    requires LabelsDistinct(p.networks.Keys) && IsNamedPorts(p, named)
    ensures "clickhouse-cbt-01-http" in named && named["clickhouse-cbt-01-http"] == p.clickHouseCBT01HTTP
    ensures "clickhouse-cbt-01-native" in named && named["clickhouse-cbt-01-native"] == p.clickHouseCBT01TCP
    ensures "clickhouse-cbt-02-http" in named && named["clickhouse-cbt-02-http"] == p.clickHouseCBT02HTTP
    ensures "clickhouse-cbt-02-native" in named && named["clickhouse-cbt-02-native"] == p.clickHouseCBT02TCP
  {
    KeyOfName(p, named, Fixed(ClickHouseCBT01HTTP));
    KeyOfName(p, named, Fixed(ClickHouseCBT01TCP));
    KeyOfName(p, named, Fixed(ClickHouseCBT02HTTP));
    KeyOfName(p, named, Fixed(ClickHouseCBT02TCP));
  }

  lemma XatuKeys(p: PortPlan, named: map<string, int>)
    requires LabelsDistinct(p.networks.Keys) && IsNamedPorts(p, named)
    ensures "clickhouse-xatu-01-http" in named && named["clickhouse-xatu-01-http"] == p.clickHouseXatu01HTTP
    ensures "clickhouse-xatu-01-native" in named && named["clickhouse-xatu-01-native"] == p.clickHouseXatu01TCP
    ensures "clickhouse-xatu-02-http" in named && named["clickhouse-xatu-02-http"] == p.clickHouseXatu02HTTP
    ensures "clickhouse-xatu-02-native" in named && named["clickhouse-xatu-02-native"] == p.clickHouseXatu02TCP
  {
    KeyOfName(p, named, Fixed(ClickHouseXatu01HTTP));
    KeyOfName(p, named, Fixed(ClickHouseXatu01TCP));
    KeyOfName(p, named, Fixed(ClickHouseXatu02HTTP));
    KeyOfName(p, named, Fixed(ClickHouseXatu02TCP));
  }

  lemma NetworkKeys(p: PortPlan, named: map<string, int>, network: string)
    requires LabelsDistinct(p.networks.Keys) && IsNamedPorts(p, named) && network in p.networks
    ensures "cbt-" + network in named && named["cbt-" + network] == p.networks[network].cbt
    ensures "cbt-api-" + network in named && named["cbt-api-" + network] == p.networks[network].cbtAPI
    ensures "cbt-frontend-" + network in named && named["cbt-frontend-" + network] == p.networks[network].cbtFrontend
    ensures "cbt-metrics-" + network in named && named["cbt-metrics-" + network] == p.networks[network].cbtMetrics
    ensures "cbt-api-metrics-" + network in named
      && named["cbt-api-metrics-" + network] == p.networks[network].cbtAPIMetrics
  {
    KeyOfName(p, named, OfNetwork(CBT, network));
    KeyOfName(p, named, OfNetwork(CBTAPI, network));
    KeyOfName(p, named, OfNetwork(CBTFrontend, network));
    KeyOfName(p, named, OfNetwork(CBTMetrics, network));
    KeyOfName(p, named, OfNetwork(CBTAPIMetrics, network));
  }

  /** When the keys tell the names apart, the listing is the plan, in every order. */
  lemma SafeListing(p: PortPlan, named: map<string, int>)
    requires LabelsDistinct(p.networks.Keys) && IsNamedPorts(p, named)
    ensures Positive(named) == PortSet(p)
    ensures Repeats(named) <==> HasDuplicates(p)
  {
    ListedBelongs(p, named);
    forall q | q in PortSet(p) ensures q in Positive(named) {
      PortSetMember(p, q);
      var n :| IsPortName(p.networks.Keys, n) && PortAt(p, n) == q;
      KeyOfName(p, named, n);
    }
    if HasDuplicates(p) {
      var a, b :| IsPortName(p.networks.Keys, a) && IsPortName(p.networks.Keys, b)
        && a != b && PortAt(p, a) == PortAt(p, b) > 0;
      KeyOfName(p, named, a);
      KeyOfName(p, named, b);
      assert Label(a) != Label(b);
    }
  }

  /** Of two names under one key, at least one port is missing from every listing, when the plan has it only once. */
  lemma ClashLosesPort(p: PortPlan, x: PortName, y: PortName, named: map<string, int>)
    requires IsPortName(p.networks.Keys, x) && IsPortName(p.networks.Keys, y) && x != y && Label(x) == Label(y)
    requires !HasDuplicates(p) && PortAt(p, x) > 0 && PortAt(p, y) > 0 && IsNamedPorts(p, named)
    ensures {PortAt(p, x), PortAt(p, y)} <= PortSet(p) && !({PortAt(p, x), PortAt(p, y)} <= Positive(named))
  {
    PortSetMember(p, PortAt(p, x));
    PortSetMember(p, PortAt(p, y));
    NamedPortsKeyed(p, named);
    assert PortAt(p, x) != PortAt(p, y);
    var lost := if named[Label(x)] == PortAt(p, x) then y else x;
    forall k | k in named ensures named[k] != PortAt(p, lost) {
      var n :| IsPortName(p.networks.Keys, n) && Label(n) == k && PortAt(p, n) == named[k];
      assert n != lost ==> PortAt(p, n) != PortAt(p, lost);
    }
  }

  /**
   * A plan whose ports are positive and different is listed in full, in every order, exactly when no two networks
   * clash.
   */
  lemma ListedInFullIffNoClash(p: PortPlan)
    requires !HasDuplicates(p) && forall n | IsPortName(p.networks.Keys, n) :: PortAt(p, n) > 0
    ensures (forall named | IsNamedPorts(p, named) :: Positive(named) == PortSet(p))
            <==> !NetworksClash(p.networks.Keys)
  {
    LabelsDistinctIffNoClash(p.networks.Keys);
    if LabelsDistinct(p.networks.Keys) {
      forall named | IsNamedPorts(p, named) ensures Positive(named) == PortSet(p) {
        SafeListing(p, named);
      }
    } else {
      var x, y :| IsPortName(p.networks.Keys, x) && IsPortName(p.networks.Keys, y) && Label(x) == Label(y) && x != y;
      var named := SomeNamed(p);
      ClashLosesPort(p, x, y, named);
    }
  }

  // ---- Duplicates and overlaps ----

  /** Exactly the positive ports that stand under more than one key. */
  ghost predicate ListsRepeated(named: map<string, int>, duplicates: seq<int>) {
    forall q :: q in duplicates <==> q > 0 && |KeysAt(named, named.Keys, q)| > 1
  }

  /** The ports listed under more than one key, ascending. */
  method DuplicatesOf(p: PortPlan) returns (duplicates: seq<int>, ghost named: map<string, int>)
    ensures IsNamedPorts(p, named)
    ensures SortedInts(duplicates) && NoDuplicates(duplicates)
    ensures ListsRepeated(named, duplicates)
    ensures duplicates != [] <==> Repeats(named)
  {
    var ports;
    ports, named := AllPorts(p);
    var counts := CountPorts(ports);
    var found := CountedTwice(counts);
    duplicates := SortInts(found);
    SameMultisetNoDuplicates(found, duplicates);
    ListedTwice(named, ports, counts, found, duplicates);
    RepeatsIffListed(named, duplicates);
  }

  lemma RepeatsIffListed(named: map<string, int>, duplicates: seq<int>)
    requires ListsRepeated(named, duplicates)
    ensures duplicates != [] <==> Repeats(named)
  {
    if duplicates != [] {
      var q := duplicates[0];
      assert q in duplicates;
      var keys := KeysAt(named, named.Keys, q);
      var j := Member(keys);
      assert |keys - {j}| == |keys| - 1;
      var k := Member(keys - {j});
      assert j != k && named[j] == named[k];
    }
    if j, k :| j in named && k in named && j != k && named[j] == named[k] > 0 {
      SubsetCardinality({j, k}, KeysAt(named, named.Keys, named[j]));
      assert named[j] in duplicates;
    }
  }

  method CountedTwice(counts: map<int, int>) returns (found: seq<int>)
    ensures NoDuplicates(found)
    ensures forall q :: q in found <==> q in counts && counts[q] > 1
  {
    found := [];
    var remaining := counts.Keys;
    while remaining != {}
      invariant remaining <= counts.Keys
      invariant NoDuplicates(found)
      invariant forall q :: q in found <==> q in counts && q !in remaining && counts[q] > 1
      decreases remaining
    {
      var port := AnyKey(remaining);
      remaining := remaining - {port};
      if counts[port] > 1 {
        NoDuplicatesSnoc(found, port);
        found := found + [port];
      }
    }
  }

  method CountPorts(ports: seq<int>) returns (counts: map<int, int>)
    ensures forall q :: q in counts <==> q in ports
    ensures forall q | q in counts :: counts[q] == multiset(ports)[q]
  {
    counts := map[];
    for i := 0 to |ports|
      invariant forall q :: q in counts <==> q in ports[..i]
      invariant forall q | q in counts :: counts[q] == multiset(ports[..i])[q]
    {
      assert ports[..i + 1] == ports[..i] + [ports[i]];
      assert ports[i] in ports[..i] <==> ports[i] in multiset(ports[..i]);
      counts := counts[ports[i] := (if ports[i] in counts then counts[ports[i]] else 0) + 1];
    }
    assert ports[..|ports|] == ports;
  }

  lemma ListedTwice(
      named: map<string, int>, ports: seq<int>, counts: map<int, int>, found: seq<int>, duplicates: seq<int>)
    requires forall q :: q in counts <==> q in ports
    requires forall q | q in counts :: counts[q] == multiset(ports)[q]
    requires forall q :: q in found <==> q in counts && counts[q] > 1
    requires multiset(duplicates) == multiset(found) && ListsPorts(named, ports)
    ensures ListsRepeated(named, duplicates)
  {
    forall q ensures q in duplicates <==> multiset(ports)[q] > 1 {
      assert q in duplicates <==> q in multiset(duplicates);
      assert q in found <==> q in multiset(found);
      assert q in ports <==> q in multiset(ports);
    }
  }

  /** The other plan's listed ports that this plan lists too, ascending. */
  method Overlaps(p: PortPlan, other: PortPlan)
    returns (overlap: seq<int>, ghost mine: map<string, int>, ghost theirs: map<string, int>)
    ensures IsNamedPorts(p, mine) && IsNamedPorts(other, theirs)
    ensures SortedInts(overlap) && Elements(overlap) == Positive(mine) * Positive(theirs)
  {
    var ports, others;
    ports, mine := AllPorts(p);
    others, theirs := AllPorts(other);
    overlap := OverlapWithSet(others, Elements(ports));
    forall q ensures q in overlap <==> q in Positive(mine) * Positive(theirs) {
      assert q in others <==> q in Elements(others);
    }
  }

  /** The listed ports that are in use, ascending. */
  method OverlapWithSet(ports: seq<int>, used: set<int>) returns (overlap: seq<int>)
    ensures SortedInts(overlap)
    ensures forall q :: q in overlap <==> q in ports && q in used
  {
    var found: seq<int> := [];
    for i := 0 to |ports|
      invariant forall q :: q in found <==> q in ports[..i] && q in used
    {
      if ports[i] in used {
        found := found + [ports[i]];
      }
    }
    assert ports[..|ports|] == ports;
    overlap := SortInts(found);
    forall q ensures q in overlap <==> q in found {
      assert q in multiset(overlap) <==> q in multiset(found);
    }
  }

  lemma PortSetMember(p: PortPlan, q: int)
    ensures q in PortSet(p) <==> q > 0 && exists n :: IsPortName(p.networks.Keys, n) && PortAt(p, n) == q
  {
    forall n ensures n in PortNames(p.networks.Keys) <==> IsPortName(p.networks.Keys, n) {
      PortNamesMember(p.networks.Keys, n);
    }
  }
}
