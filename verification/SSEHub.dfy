/** The event hub of the Command Center (pkg/cc/sse.go): its operations, and what their interleavings keep. */
module SSEHub {
  import opened Common

  const CAPACITY: nat := 64

  /** What a channel of that capacity holds after a send that does not wait. */
  function Offered<T>(buffer: seq<T>, e: T): seq<T> {
    if |buffer| < CAPACITY then buffer + [e] else buffer
  }

  datatype SSEEvent = SSEEvent(name: string, data: string)

  class SSEClient {
    var events: seq<SSEEvent>
    var closed: nat  // how often `done` was closed; Go panics at the second time

    constructor ()
      ensures events == [] && closed == 0
    {
      events, closed := [], 0;
    }
  }

  class Hub {
    var clients: set<SSEClient>
    var closed: nat

    constructor ()
      ensures Valid() && clients == {} && closed == 0
    {
      clients, closed := {}, 0;
    }

    ghost predicate Valid()
      reads this, clients
    {
      forall c | c in clients :: c.closed == 0 && |c.events| <= CAPACITY
    }

    method Register() returns (c: SSEClient)
      requires Valid()
      modifies this
      ensures Valid() && fresh(c) && clients == old(clients) + {c} && closed == old(closed)
      ensures c.events == [] && c.closed == 0
    {
      c := new SSEClient();
      clients := clients + {c};
    }

    /** A client that is gone already, by Stop or by an earlier call, is left alone. */
    method Unregister(c: SSEClient)
      requires Valid()
      modifies this, c
      ensures Valid() && clients == old(clients) - {c} && closed == old(closed)
      ensures c.events == old(c.events)
      ensures c.closed == if c in old(clients) then 1 else old(c.closed)
    {
      if c !in clients { return; }
      clients := clients - {c};
      c.closed := c.closed + 1;
    }

    method Broadcast(e: SSEEvent)
      requires Valid()
      modifies clients
      ensures Valid() && clients == old(clients)
      ensures forall c | c in clients :: c.events == Offered(old(c.events), e) && c.closed == old(c.closed)
      ensures forall c | c in clients :: c.events == old(c.events) + if |old(c.events)| < 64 then [e] else []
    {
      var remaining := clients;
      while remaining != {}
        invariant remaining <= clients
        invariant forall c | c in clients :: c.closed == 0
        invariant forall c | c in clients ::
          c.events == if c in remaining then old(c.events) else Offered(old(c.events), e)
        decreases remaining
      {
        var c := AnyKey(remaining);
        if |c.events| < CAPACITY { c.events := c.events + [e]; }
        remaining := remaining - {c};
      }
    }

    method Stop()
      requires Valid() && closed == 0
      modifies this, clients
      ensures Valid() && clients == {} && closed == 1
      ensures forall c | c in old(clients) :: c.closed == 1 && c.events == old(c.events)
    {
      closed := closed + 1;
      ghost var all := clients;
      while clients != {}
        invariant clients <= all && closed == 1
        invariant forall c | c in all :: c.closed == if c in clients then 0 else 1
        invariant forall c | c in all :: c.events == old(c.events)
        decreases clients
      {
        var c := AnyKey(clients);
        c.closed := c.closed + 1;
        clients := clients - {c};
      }
    }
  }

  // ---- Interleavings ----

  /** The `number`-th event of the broadcaster `source`. */
  datatype Sent = Sent(source: nat, number: nat)

  datatype Loss = Loss(event: Sent, pending: nat)

  /**
   * `removing`: Unregister has removed the client and not yet closed its channel.  History: `received` left the
   * buffer, `lost` was dropped with that many pending, `owed` holds the events broadcast while it was registered.
   */
  datatype Client = Client(
    registered: bool, removing: bool, closed: nat,
    buffer: seq<Sent>, received: seq<Sent>, lost: seq<Loss>, owed: set<Sent>)

  /** A broadcast under the read lock: the clients it has not offered its event to yet. */
  datatype Broadcasting = Broadcasting(event: Sent, remaining: set<nat>)

  datatype HubState = HubState(
    clients: map<nat, Client>, active: map<nat, Broadcasting>, numbers: map<nat, nat>, stopping: bool, stopped: bool)

  const START := HubState(map[], map[], map[], false, false)

  datatype Step =
    | RegisterClient(c: nat)
    | RemoveClient(c: nat)
    | CloseRemoved(c: nat)
    | BeginBroadcast(source: nat)
    | OfferTo(source: nat, c: nat)
    | EndBroadcast(source: nat)
    | CloseHub
    | CloseAll
    | Receive(c: nat)

  function Registered(s: HubState): set<nat> {
    set c | c in s.clients && s.clients[c].registered
  }

  function NumberAfter(numbers: map<nat, nat>, source: nat): nat {
    if source in numbers then numbers[source] else 0
  }

  /** Writers of the client map wait until no broadcast holds the read lock. */
  predicate Enabled(s: HubState, step: Step) {
    match step
    case RegisterClient(c) => c !in s.clients && s.active == map[]
    case RemoveClient(c) => c in s.clients && s.active == map[]
    case CloseRemoved(c) => c in s.clients && s.clients[c].removing
    case BeginBroadcast(source) => source !in s.active
    case OfferTo(source, c) => source in s.active && c in s.active[source].remaining && c in s.clients
    case EndBroadcast(source) => source in s.active && s.active[source].remaining == {}
    case CloseHub => !s.stopping
    case CloseAll => s.stopping && !s.stopped && s.active == map[]
    case Receive(c) => c in s.clients && s.clients[c].buffer != []
  }

  function Offer(client: Client, e: Sent): Client {
    client.(buffer := Offered(client.buffer, e),
            lost := if |client.buffer| < CAPACITY then client.lost else client.lost + [Loss(e, |client.buffer|)])
  }

  function WithClient(s: HubState, c: nat, client: Client): HubState {
    s.(clients := s.clients[c := client])
  }

  function Removed(client: Client): Client {
    if client.registered then client.(registered := false, removing := true) else client
  }

  const NEW_CLIENT := Client(true, false, 0, [], [], [], {})

  function Settled(client: Client): Client {
    client.(removing := false, closed := client.closed + 1)
  }

  function Closed(client: Client): Client {
    client.(registered := false, closed := client.closed + 1)
  }

  function Read(client: Client): Client
    requires client.buffer != []
  {
    client.(buffer := client.buffer[1..], received := client.received + [client.buffer[0]])
  }

  function Owing(client: Client, e: Sent): Client {
    if client.registered then client.(owed := client.owed + {e}) else client
  }

  function Begun(s: HubState, source: nat): HubState {
    var e := Sent(source, NumberAfter(s.numbers, source));
    s.(active := s.active[source := Broadcasting(e, Registered(s))],
       numbers := s.numbers[source := e.number + 1],
       clients := map c | c in s.clients :: Owing(s.clients[c], e))
  }

  function OfferedTo(s: HubState, source: nat, c: nat): HubState
    requires source in s.active && c in s.clients
  {
    WithClient(s, c, Offer(s.clients[c], s.active[source].event))
      .(active := s.active[source := s.active[source].(remaining := s.active[source].remaining - {c})])
  }

  function AllClosed(s: HubState): HubState {
    s.(stopped := true,
        clients := map c | c in s.clients :: if s.clients[c].registered then Closed(s.clients[c]) else s.clients[c])
  }

  function Next(s: HubState, step: Step): HubState
    requires Enabled(s, step)
  {
    match step
    case RegisterClient(c) => WithClient(s, c, NEW_CLIENT)
    case RemoveClient(c) => WithClient(s, c, Removed(s.clients[c]))
    case CloseRemoved(c) => WithClient(s, c, Settled(s.clients[c]))
    case BeginBroadcast(source) => Begun(s, source)
    case OfferTo(source, c) => OfferedTo(s, source, c)
    case EndBroadcast(source) => s.(active := s.active - {source})
    case CloseHub => s.(stopping := true)
    case CloseAll => AllClosed(s)
    case Receive(c) => WithClient(s, c, Read(s.clients[c]))
  }

  /** Receiving takes the oldest pending event of that client and changes nothing else. */
  lemma ReceiveTakesOldest(s: HubState, c: nat)
    requires Enabled(s, Receive(c))
    ensures var before, t := s.clients[c], Next(s, Receive(c));
      && t.clients.Keys == s.clients.Keys && t.active == s.active && t.numbers == s.numbers
      && (forall other | other in s.clients && other != c :: t.clients[other] == s.clients[other])
      && [before.buffer[0]] + t.clients[c].buffer == before.buffer
      && t.clients[c].received == before.received + [before.buffer[0]]
      && t.clients[c].lost == before.lost && t.clients[c].owed == before.owed
      && t.clients[c].closed == before.closed && t.clients[c].registered == before.registered
  {
  }

  /** The state after the client has read `n` times, with nothing in between. */
  function AfterReading(s: HubState, c: nat, n: nat): HubState
    requires c in s.clients && n <= |s.clients[c].buffer|
    decreases n
  {
    if n == 0 then s else AfterReading(Next(s, Receive(c)), c, n - 1)
  }

  /** A client that goes on reading gets everything pending, in order, and is left with an empty buffer. */
  lemma {:induction false} ReadingDrains(s: HubState, c: nat)
    requires c in s.clients
    ensures var before, after := s.clients[c], AfterReading(s, c, |s.clients[c].buffer|).clients;
      c in after && after[c].buffer == [] && after[c].received == before.received + before.buffer
    decreases |if c in s.clients then s.clients[c].buffer else []|
  {
    if s.clients[c].buffer != [] {
      ReceiveTakesOldest(s, c);
      ReadingDrains(Next(s, Receive(c)), c);
    }
  }

  // ---- What every interleaving keeps ----

  /** `done` is closed at most once, and only when the client is out of the hub. */
  predicate ClosedOnce(client: Client) {
    (if client.registered then 1 else 0) + (if client.removing then 1 else 0) + client.closed <= 1
  }

  /** Everything the client got or still has to read, in order. */
  function Stream(client: Client): seq<Sent> { client.received + client.buffer }

  function Dropped(client: Client): seq<Sent> {
    seq(|client.lost|, i requires 0 <= i < |client.lost| => client.lost[i].event)
  }

  /** Each broadcaster's events in the order they were sent, none twice. */
  predicate InOrder(events: seq<Sent>) {
    forall i, j | 0 <= i < j < |events| && events[i].source == events[j].source :: events[i].number < events[j].number
  }

  /**
   * Of the events owed, some came through, some were dropped, and the others are `awaited`: the client has yet
   * to be offered them by a running broadcast.
   */
  ghost predicate Served(
      stream: seq<Sent>, dropped: seq<Sent>, owed: set<Sent>, numbers: map<nat, nat>, awaited: set<Sent>)
  {
    && InOrder(stream) && InOrder(dropped) && Elements(stream) !! Elements(dropped)
    && (forall e | e in Elements(stream) + Elements(dropped) :: e.number < NumberAfter(numbers, e.source))
    && Elements(stream) + Elements(dropped) !! awaited && owed == Elements(stream) + Elements(dropped) + awaited
  }

  ghost predicate ClientOk(client: Client, numbers: map<nat, nat>, awaited: set<Sent>) {
    && ClosedOnce(client) && |client.buffer| <= CAPACITY
    && (forall l | l in client.lost :: l.pending == CAPACITY)
    && Served(Stream(client), Dropped(client), client.owed, numbers, awaited)
  }

  function Awaited(active: map<nat, Broadcasting>, c: nat): set<Sent> {
    set b | b in active && c in active[b].remaining :: active[b].event
  }

  ghost predicate Inv(s: HubState) {
    && (forall b | b in s.active ::
          && s.active[b].event.source == b && s.active[b].event.number + 1 == NumberAfter(s.numbers, b)
          && s.active[b].remaining <= Registered(s))
    && forall c | c in s.clients :: ClientOk(s.clients[c], s.numbers, Awaited(s.active, c))
  }

  lemma InOrderSnoc(events: seq<Sent>, e: Sent)
    requires InOrder(events) && forall o | o in events && o.source == e.source :: o.number < e.number
    ensures InOrder(events + [e]) && Elements(events + [e]) == Elements(events) + {e}
  {
    var all := events + [e];
    forall i, j | 0 <= i < j < |all| && all[i].source == all[j].source ensures all[i].number < all[j].number {
      assert all[i] in events;
    }
  }

  /** An awaited event is newer than everything the client was offered by its broadcaster. */
  lemma ServedOnceMore(
      stream: seq<Sent>, dropped: seq<Sent>, owed: set<Sent>, numbers: map<nat, nat>, awaited: set<Sent>, e: Sent)
    requires Served(stream, dropped, owed, numbers, awaited) && e in awaited
    requires e.number + 1 == NumberAfter(numbers, e.source)
    ensures Served(stream + [e], dropped, owed, numbers, awaited - {e})
    ensures Served(stream, dropped + [e], owed, numbers, awaited - {e})
  {
    forall o | o in Elements(stream) + Elements(dropped) && o.source == e.source ensures o.number < e.number {
      assert o !in awaited;
      assert o.number < e.number + 1;
    }
    InOrderSnoc(stream, e);
    InOrderSnoc(dropped, e);
  }

  lemma OfferKeepsClient(client: Client, numbers: map<nat, nat>, awaited: set<Sent>, e: Sent)
    requires ClientOk(client, numbers, awaited) && e in awaited && e.number + 1 == NumberAfter(numbers, e.source)
    ensures ClientOk(Offer(client, e), numbers, awaited - {e})
  {
    var after := Offer(client, e);
    ServedOnceMore(Stream(client), Dropped(client), client.owed, numbers, awaited, e);
    if |client.buffer| < CAPACITY {
      assert Stream(after) == Stream(client) + [e];
    } else {
      assert Dropped(after) == Dropped(client) + [e];
    }
  }

  lemma NumbersGrow(
      stream: seq<Sent>, dropped: seq<Sent>, owed: set<Sent>, numbers: map<nat, nat>, awaited: set<Sent>,
      more: map<nat, nat>)
    requires Served(stream, dropped, owed, numbers, awaited)
    requires forall b :: NumberAfter(numbers, b) <= NumberAfter(more, b)
    ensures Served(stream, dropped, owed, more, awaited)
  {
    forall e | e in Elements(stream) + Elements(dropped) ensures e.number < NumberAfter(more, e.source) {
      assert NumberAfter(numbers, e.source) <= NumberAfter(more, e.source);
    }
  }

  lemma OneMoreOwed(
      stream: seq<Sent>, dropped: seq<Sent>, owed: set<Sent>, numbers: map<nat, nat>, awaited: set<Sent>, source: nat)
    requires Served(stream, dropped, owed, numbers, awaited)
    ensures var e := Sent(source, NumberAfter(numbers, source));
      Served(stream, dropped, owed + {e}, numbers[source := e.number + 1], awaited + {e})
  {
    var e := Sent(source, NumberAfter(numbers, source));
    NumbersGrow(stream, dropped, owed, numbers, awaited, numbers[source := e.number + 1]);
    assert e !in Elements(stream) + Elements(dropped);
  }

  lemma ReceiveKeepsClient(client: Client, numbers: map<nat, nat>, awaited: set<Sent>)
    requires ClientOk(client, numbers, awaited) && client.buffer != []
    ensures ClientOk(Read(client), numbers, awaited)
  {
    assert Stream(Read(client)) == Stream(client);
  }

  lemma OwingKeepsClient(client: Client, numbers: map<nat, nat>, awaited: set<Sent>, source: nat, e: Sent)
    requires ClientOk(client, numbers, awaited) && e == Sent(source, NumberAfter(numbers, source))
    ensures ClientOk(Owing(client, e), numbers[source := e.number + 1], awaited + if client.registered then {e} else {})
  {
    if client.registered {
      OneMoreOwed(Stream(client), Dropped(client), client.owed, numbers, awaited, source);
    } else {
      NumbersGrow(Stream(client), Dropped(client), client.owed, numbers, awaited, numbers[source := e.number + 1]);
      assert awaited + {} == awaited;
    }
  }

  lemma BeginKeepsEach(s: HubState, source: nat, c: nat)
    requires Inv(s) && source !in s.active && c in s.clients
    ensures var next := Begun(s, source); ClientOk(next.clients[c], next.numbers, Awaited(next.active, c))
  {
    var e := Sent(source, NumberAfter(s.numbers, source));
    AwaitedAfterBegin(s.active, source, Broadcasting(e, Registered(s)), c);
    OwingKeepsClient(s.clients[c], s.numbers, Awaited(s.active, c), source, e);
  }

  lemma BeginKeepsInv(s: HubState, source: nat)
    requires Inv(s) && source !in s.active
    ensures Inv(Begun(s, source))
  {
    var next := Begun(s, source);
    assert Registered(next) == Registered(s);
    forall c | c in next.clients ensures ClientOk(next.clients[c], next.numbers, Awaited(next.active, c)) {
      BeginKeepsEach(s, source, c);
    }
  }

  lemma AwaitedAfterBegin(active: map<nat, Broadcasting>, source: nat, b: Broadcasting, c: nat)
    requires source !in active
    ensures Awaited(active[source := b], c) == Awaited(active, c) + if c in b.remaining then {b.event} else {}
  {
    var after := active[source := b];
    assert source in after && after[source] == b;
    forall e | e in Awaited(active, c) ensures e in Awaited(after, c) {
      var k :| k in active && c in active[k].remaining && active[k].event == e;
      assert k in after && c in after[k].remaining && after[k].event == e;
    }
  }

  /** A step that changes one client, and neither the map's members nor the broadcasts. */
  lemma OneClientKeepsInv(s: HubState, c: nat, client: Client)
    requires Inv(s) && c in s.clients && client.registered == s.clients[c].registered
    requires ClientOk(client, s.numbers, Awaited(s.active, c))
    ensures Inv(WithClient(s, c, client))
  {
    assert Registered(WithClient(s, c, client)) == Registered(s);
  }

  lemma OfferKeepsEach(s: HubState, source: nat, c: nat, d: nat)
    requires Inv(s) && source in s.active && c in s.active[source].remaining && c in s.clients && d in s.clients
    ensures var next := OfferedTo(s, source, c); ClientOk(next.clients[d], s.numbers, Awaited(next.active, d))
  {
    AwaitedAfterOffer(s.active, source, c, d);
    if d == c {
      OfferKeepsClient(s.clients[c], s.numbers, Awaited(s.active, c), s.active[source].event);
    }
  }

  lemma OfferKeepsInv(s: HubState, source: nat, c: nat)
    requires Inv(s) && source in s.active && c in s.active[source].remaining && c in s.clients
    ensures Inv(OfferedTo(s, source, c))
  {
    var next := OfferedTo(s, source, c);
    assert Registered(next) == Registered(s);
    forall d | d in next.clients ensures ClientOk(next.clients[d], next.numbers, Awaited(next.active, d)) {
      OfferKeepsEach(s, source, c, d);
    }
  }

  lemma EndKeepsInv(s: HubState, source: nat)
    requires Inv(s) && source in s.active && s.active[source].remaining == {}
    ensures Inv(s.(active := s.active - {source}))
  {
    var next := s.(active := s.active - {source});
    assert Registered(next) == Registered(s);
    forall c | c in next.clients ensures Awaited(next.active, c) == Awaited(s.active, c) {
      forall e | e in Awaited(s.active, c) ensures e in Awaited(next.active, c) {
        var k :| k in s.active && c in s.active[k].remaining && s.active[k].event == e;
        assert k in next.active && c in next.active[k].remaining && next.active[k].event == e;
      }
    }
  }

  lemma AwaitedAfterOffer(active: map<nat, Broadcasting>, source: nat, c: nat, d: nat)
    requires source in active && c in active[source].remaining && forall b | b in active :: active[b].event.source == b
    ensures Awaited(active[source := active[source].(remaining := active[source].remaining - {c})], d)
      == if d == c then Awaited(active, d) - {active[source].event} else Awaited(active, d)
  {
    var after := active[source := active[source].(remaining := active[source].remaining - {c})];
    forall e | e in Awaited(active, d) && !(d == c && e == active[source].event) ensures e in Awaited(after, d) {
      var b :| b in active && d in active[b].remaining && active[b].event == e;
      assert b in after && d in after[b].remaining && after[b].event == e;
    }
  }

  lemma RegisterKeepsInv(s: HubState, c: nat)
    requires Inv(s) && c !in s.clients && s.active == map[]
    ensures Inv(WithClient(s, c, NEW_CLIENT))
  {
    assert Stream(NEW_CLIENT) == [] && Dropped(NEW_CLIENT) == [];
    assert Awaited(s.active, c) == {};
  }

  lemma RemoveKeepsInv(s: HubState, c: nat)
    requires Inv(s) && c in s.clients && s.active == map[]
    ensures Inv(WithClient(s, c, Removed(s.clients[c])))
  {
  }

  lemma CloseAllKeepsInv(s: HubState)
    requires Inv(s) && s.active == map[]
    ensures Inv(AllClosed(s))
  {
    var next := AllClosed(s);
    forall c | c in next.clients ensures ClientOk(next.clients[c], next.numbers, Awaited(next.active, c)) {
    }
  }

  lemma CloseHubKeepsInv(s: HubState)
    requires Inv(s)
    ensures Inv(s.(stopping := true))
  {
    assert Registered(s.(stopping := true)) == Registered(s);
  }

  lemma CloseRemovedKeepsInv(s: HubState, c: nat)
    requires Inv(s) && c in s.clients && s.clients[c].removing
    ensures Inv(WithClient(s, c, Settled(s.clients[c])))
  {
    OneClientKeepsInv(s, c, Settled(s.clients[c]));
  }

  lemma ReceiveKeepsInv(s: HubState, c: nat)
    requires Inv(s) && c in s.clients && s.clients[c].buffer != []
    ensures Inv(WithClient(s, c, Read(s.clients[c])))
  {
    ReceiveKeepsClient(s.clients[c], s.numbers, Awaited(s.active, c));
    OneClientKeepsInv(s, c, Read(s.clients[c]));
  }

  predicate IsBroadcastStep(step: Step) { step.BeginBroadcast? || step.OfferTo? || step.EndBroadcast? }

  lemma BroadcastStepKeepsInv(s: HubState, step: Step)
    requires Inv(s) && Enabled(s, step) && IsBroadcastStep(step)
    ensures Inv(Next(s, step))
  {
    match step
    case BeginBroadcast(source) => BeginKeepsInv(s, source);
    case OfferTo(source, c) => OfferKeepsInv(s, source, c);
    case EndBroadcast(source) => EndKeepsInv(s, source);
  }

  lemma ClientStepKeepsInv(s: HubState, step: Step)
    requires Inv(s) && Enabled(s, step)
    requires (step.RegisterClient? || step.RemoveClient? || step.CloseRemoved? || step.Receive?)
    ensures Inv(Next(s, step))
  {
    match step
    case RegisterClient(c) =>
      RegisterKeepsInv(s, c);
      assert Next(s, step) == WithClient(s, c, NEW_CLIENT);
    case RemoveClient(c) =>
      RemoveKeepsInv(s, c);
      assert Next(s, step) == WithClient(s, c, Removed(s.clients[c]));
    case CloseRemoved(c) =>
      CloseRemovedKeepsInv(s, c);
      assert Next(s, step) == WithClient(s, c, Settled(s.clients[c]));
    case Receive(c) =>
      ReceiveKeepsInv(s, c);
      assert Next(s, step) == WithClient(s, c, Read(s.clients[c]));
  }

  // ---- Runs ----

  predicate Valid(steps: seq<Step>)
    decreases |steps|, 0
  {
    steps == [] || (Valid(steps[..|steps| - 1]) && Enabled(Run(steps[..|steps| - 1]), steps[|steps| - 1]))
  }

  function Run(steps: seq<Step>): HubState
    requires Valid(steps)
    decreases |steps|, 1
  {
    if steps == [] then START else Next(Run(steps[..|steps| - 1]), steps[|steps| - 1])
  }

  lemma {:induction false} RunsKeepInv(steps: seq<Step>)
    requires Valid(steps)
    ensures Inv(Run(steps))
    decreases |steps|
  {
    if steps == [] {
    } else {
      RunsKeepInv(steps[..|steps| - 1]);
      var before, step := Run(steps[..|steps| - 1]), steps[|steps| - 1];
      if IsBroadcastStep(step) {
        BroadcastStepKeepsInv(before, step);
      } else if step.CloseHub? {
        CloseHubKeepsInv(before);
      } else if step.CloseAll? {
        CloseAllKeepsInv(before);
      } else {
        ClientStepKeepsInv(before, step);
      }
    }
  }

  /**
   * In every interleaving: a client's channel is closed at most once and not while it is in the hub, its buffer
   * holds at most 64 events, it sees each broadcaster's events in order and none twice, and it loses an
   * event only when 64 are pending.
   */
  lemma ClientsAreServed(steps: seq<Step>, c: nat)
    requires Valid(steps) && c in Run(steps).clients
    ensures var client := Run(steps).clients[c];
      && client.closed <= 1 && (client.closed == 1 ==> !client.registered && !client.removing)
      && |client.buffer| <= CAPACITY
      && InOrder(Stream(client)) && NoDuplicates(Stream(client))
      && forall l | l in client.lost :: l.pending == CAPACITY
  {
    RunsKeepInv(steps);
  }

  /**
   * Once no broadcast is running, each event sent while the client was in the hub was received, is pending or was
   * lost: once.
   */
  lemma NothingUnaccountedFor(steps: seq<Step>, c: nat)
    requires Valid(steps) && c in Run(steps).clients && Run(steps).active == map[]
    ensures var client := Run(steps).clients[c];
      && client.owed == Elements(client.received) + Elements(client.buffer) + Elements(Dropped(client))
      && |client.owed| == |client.received| + |client.buffer| + |client.lost|
  {
    RunsKeepInv(steps);
    var client := Run(steps).clients[c];
    assert Awaited(Run(steps).active, c) == {};
    assert Elements(Stream(client)) == Elements(client.received) + Elements(client.buffer);
    NoDuplicatesCount(Stream(client));
    NoDuplicatesCount(Dropped(client));
  }

  // ---- The operations of the hub are sequences of these steps ----

  /** A buffer as the client of a hub holds it, when `content` is what each event says. */
  function Contents(content: Sent -> SSEEvent, buffer: seq<Sent>): seq<SSEEvent> {
    seq(|buffer|, i requires 0 <= i < |buffer| => content(buffer[i]))
  }

  lemma OfferedContents(content: Sent -> SSEEvent, buffer: seq<Sent>, e: Sent)
    ensures Contents(content, Offered(buffer, e)) == Offered(Contents(content, buffer), content(e))
  {
  }

  lemma RunSnoc(steps: seq<Step>, step: Step)
    requires Valid(steps) && Enabled(Run(steps), step)
    ensures Valid(steps + [step]) && Run(steps + [step]) == Next(Run(steps), step)
  {
    assert (steps + [step])[..|steps|] == steps;
  }

  /** Offering an event to the clients `order`, one after another. */
  function Offers(source: nat, order: seq<nat>): seq<Step> {
    seq(|order|, i requires 0 <= i < |order| => OfferTo(source, order[i]))
  }

  /** The state when the clients `order` have been offered the event of a running broadcast. */
  function AfterOffers(s: HubState, source: nat, order: seq<nat>): HubState
    requires source in s.active
  {
    s.(clients := map c | c in s.clients ::
         if c in order then Offer(s.clients[c], s.active[source].event) else s.clients[c],
       active := s.active[source := s.active[source].(remaining := s.active[source].remaining - Elements(order))])
  }

  lemma NoOffer(s: HubState, source: nat)
    requires source in s.active
    ensures AfterOffers(s, source, []) == s
  {
    assert s.active[source].remaining - Elements([]) == s.active[source].remaining;
    assert AfterOffers(s, source, []).clients == s.clients && AfterOffers(s, source, []).active == s.active;
  }

  lemma OneMoreOffer(s: HubState, source: nat, order: seq<nat>, c: nat)
    requires source in s.active && c !in order && c in s.clients && c in s.active[source].remaining
    ensures Enabled(AfterOffers(s, source, order), OfferTo(source, c))
    ensures OfferedTo(AfterOffers(s, source, order), source, c) == AfterOffers(s, source, order + [c])
  {
    var now, after := OfferedTo(AfterOffers(s, source, order), source, c), AfterOffers(s, source, order + [c]);
    assert s.active[source].remaining - Elements(order) - {c} == s.active[source].remaining - Elements(order + [c]) by {
      assert Elements(order + [c]) == Elements(order) + {c};
    }
    assert now.clients == after.clients && now.active == after.active;
  }

  lemma {:induction false} OffersRun(steps: seq<Step>, s: HubState, source: nat, order: seq<nat>)
    requires Valid(steps) && Run(steps) == s && source in s.active && NoDuplicates(order)
    requires forall c | c in order :: c in s.active[source].remaining && c in s.clients
    ensures Valid(steps + Offers(source, order)) && Run(steps + Offers(source, order)) == AfterOffers(s, source, order)
    decreases |order|
  {
    if order == [] {
      assert steps + Offers(source, order) == steps;
      NoOffer(s, source);
    } else {
      var n := |order| - 1;
      var before, c := order[..n], order[n];
      assert order == before + [c];
      OffersRun(steps, s, source, before);
      OneMoreOffer(s, source, before, c);
      RunSnoc(steps + Offers(source, before), OfferTo(source, c));
      assert steps + Offers(source, order) == steps + Offers(source, before) + [OfferTo(source, c)];
    }
  }

  /** The whole broadcast: every registered client is offered the event and owes nothing any more. */
  function Broadcasted(s: HubState, source: nat): HubState {
    var e := Sent(source, NumberAfter(s.numbers, source));
    s.(numbers := s.numbers[source := e.number + 1],
       clients := map c | c in s.clients ::
         if s.clients[c].registered then Offer(Owing(s.clients[c], e), e) else s.clients[c])
  }

  lemma BegunOfferedEnded(s: HubState, source: nat, order: seq<nat>)
    requires source !in s.active && Elements(order) == Registered(s)
    ensures var offered := AfterOffers(Begun(s, source), source, order);
      && Enabled(offered, EndBroadcast(source))
      && Next(offered, EndBroadcast(source)) == Broadcasted(s, source)
  {
    var offered := AfterOffers(Begun(s, source), source, order);
    assert offered.active[source].remaining == {};
    assert offered.active - {source} == s.active;
    assert forall c | c in s.clients :: c in order <==> c in Registered(s);
    assert offered.clients == Broadcasted(s, source).clients;
  }

  /** A broadcast run alone: it begins, is offered to the clients `order` and ends. */
  function BroadcastSteps(source: nat, order: seq<nat>): seq<Step> {
    [BeginBroadcast(source)] + Offers(source, order) + [EndBroadcast(source)]
  }

  lemma BeginRun(steps: seq<Step>, s: HubState, source: nat)
    requires Valid(steps) && Run(steps) == s && source !in s.active
    ensures Valid(steps + [BeginBroadcast(source)]) && Run(steps + [BeginBroadcast(source)]) == Begun(s, source)
  {
    RunSnoc(steps, BeginBroadcast(source));
  }

  lemma EndRun(steps: seq<Step>, s: HubState, source: nat)
    requires Valid(steps) && Run(steps) == s && Enabled(s, EndBroadcast(source))
    ensures Valid(steps + [EndBroadcast(source)])
    ensures Run(steps + [EndBroadcast(source)]) == Next(s, EndBroadcast(source))
  {
    RunSnoc(steps, EndBroadcast(source));
  }

  lemma BegunOffers(s: HubState, source: nat, order: seq<nat>)
    requires Elements(order) == Registered(s)
    ensures source in Begun(s, source).active
    ensures forall c | c in order :: c in Begun(s, source).active[source].remaining && c in Begun(s, source).clients
  {
    assert forall c | c in order :: c in Registered(s);
  }

  lemma BroadcastRun(steps: seq<Step>, s: HubState, source: nat, order: seq<nat>)
    requires Valid(steps) && Run(steps) == s && source !in s.active
    requires NoDuplicates(order) && Elements(order) == Registered(s)
    ensures Valid(steps + BroadcastSteps(source, order))
    ensures Run(steps + BroadcastSteps(source, order)) == Broadcasted(s, source)
  {
    var begun := steps + [BeginBroadcast(source)];
    var offered := begun + Offers(source, order);
    BeginRun(steps, s, source);
    BegunOffers(s, source, order);
    OffersRun(begun, Begun(s, source), source, order);
    BegunOfferedEnded(s, source, order);
    EndRun(offered, AfterOffers(Begun(s, source), source, order), source);
    assert steps + BroadcastSteps(source, order) == offered + [EndBroadcast(source)];
  }

  /** What a broadcast does to one client: the buffer is as Broadcast's contract states it. */
  ghost predicate IsServed(content: Sent -> SSEEvent, before: Client, after: Client, e: Sent) {
    && after.registered == before.registered && after.closed == before.closed
    && (before.registered ==> Contents(content, after.buffer) == Offered(Contents(content, before.buffer), content(e)))
    && (!before.registered ==> after == before)
  }

  lemma BroadcastedIsServed(s: HubState, source: nat, content: Sent -> SSEEvent, c: nat)
    requires c in s.clients
    ensures IsServed(content, s.clients[c], Broadcasted(s, source).clients[c],
      Sent(source, NumberAfter(s.numbers, source)))
  {
    OfferedContents(content, s.clients[c].buffer, Sent(source, NumberAfter(s.numbers, source)));
  }

  /** A broadcast run alone, in any order of the clients, is a run of the model and serves each client of the hub. */
  lemma BroadcastIsSteps(steps: seq<Step>, source: nat, order: seq<nat>, content: Sent -> SSEEvent)
    requires Valid(steps) && source !in Run(steps).active
    requires NoDuplicates(order) && Elements(order) == Registered(Run(steps))
    ensures Valid(steps + BroadcastSteps(source, order))
    ensures var before, after := Run(steps), Run(steps + BroadcastSteps(source, order));
      && after.active == before.active && after.clients.Keys == before.clients.Keys
      && forall c | c in before.clients ::
           IsServed(content, before.clients[c], after.clients[c], Sent(source, NumberAfter(before.numbers, source)))
  {
    BroadcastRun(steps, Run(steps), source, order);
    forall c | c in Run(steps).clients
      ensures IsServed(content, Run(steps).clients[c], Broadcasted(Run(steps), source).clients[c],
                       Sent(source, NumberAfter(Run(steps).numbers, source)))
    {
      BroadcastedIsServed(Run(steps), source, content, c);
    }
  }

  /** Unregister is removing and then closing; of a client that is gone it changes nothing. */
  lemma UnregisterIsSteps(s: HubState, c: nat)
    requires c in s.clients && s.active == map[] && !s.clients[c].removing
    ensures Enabled(s, RemoveClient(c))
    ensures !s.clients[c].registered ==> Next(s, RemoveClient(c)) == s
    ensures s.clients[c].registered ==>
      var removed := Next(s, RemoveClient(c));
      && Enabled(removed, CloseRemoved(c))
      && Next(removed, CloseRemoved(c)) == WithClient(s, c, Closed(s.clients[c]))
  {
    assert s.clients[c := s.clients[c]] == s.clients;
  }

  /** Stop closes every client that is registered, once. */
  lemma StopIsSteps(s: HubState)
    requires !s.stopping && !s.stopped && s.active == map[]
    ensures Enabled(s, CloseHub) && Enabled(Next(s, CloseHub), CloseAll)
    ensures var after := Next(Next(s, CloseHub), CloseAll);
      Registered(after) == {} && forall c | c in s.clients && s.clients[c].registered ::
        after.clients[c] == Closed(s.clients[c])
    ensures var after := Next(Next(s, CloseHub), CloseAll);
      && after.stopping && after.stopped && after.clients.Keys == s.clients.Keys
      && forall c | c in s.clients ::
           && !after.clients[c].registered && after.clients[c].buffer == s.clients[c].buffer
           && after.clients[c].closed == s.clients[c].closed + if s.clients[c].registered then 1 else 0
  {
  }
}
