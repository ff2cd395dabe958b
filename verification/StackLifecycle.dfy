/**
 * The Command Center's stack requests and their background workers (pkg/cc/api_stack.go, stack_context.go).
 * Every critical section is one method of `StackHandler` and one step of the interleaving model below.
 */
module StackLifecycle {
  import opened Common

  datatype Status = Idle | Starting | Running | Stopping

  datatype ProgressEvent = ProgressEvent(phase: string, message: string)

  /** The state behind the mutex; `cancelBoot` names the boot that the stored function cancels. */
  datatype Stack = Stack(status: Status, lastError: string, cancelBoot: Option<nat>, progress: seq<ProgressEvent>)

  const INITIAL := Stack(Idle, "", None, [])

  predicate Busy(status: Status) { status == Starting || status == Stopping }

  // ---- The critical sections ----

  /** More than half of the services, by their status, are running. */
  predicate MostRun(services: seq<string>) {
    multiset(services)["running"] > |services| / 2
  }

  /** A new handler takes over a stack that it finds running. */
  function AfterDetection(s: Stack, services: seq<string>): Stack {
    if MostRun(services) then s.(status := Running) else s
  }

  function Begin(s: Stack, status: Status): Stack {
    s.(status := status, lastError := "", progress := [])
  }

  function AfterUp(s: Stack): Option<Stack> {
    if Busy(s.status) || s.status == Running then None else Some(Begin(s, Starting))
  }

  /** Down and Restart begin in the same way. */
  function AfterDown(s: Stack): Option<Stack> {
    if Busy(s.status) then None else Some(Begin(s, Stopping))
  }

  function AfterCancel(s: Stack): Option<Stack> {
    if s.status != Starting then None else Some(s.(status := Stopping, cancelBoot := None, progress := []))
  }

  function AfterProgress(s: Stack, e: ProgressEvent): Stack { s.(progress := s.progress + [e]) }

  function AfterError(s: Stack, error: Option<string>): Stack {
    if error.Some? then s.(status := Idle, lastError := error.value) else s
  }

  function AfterBoot(s: Stack, error: Option<string>): Stack {
    if error.Some? then AfterError(s, error) else s.(status := Running)
  }

  function AfterTeardown(s: Stack, error: Option<string>): Stack {
    if error.Some? then AfterError(s, error) else s.(status := Idle)
  }

  function AfterCancelTeardown(s: Stack, error: Option<string>): Stack {
    if error.Some? then AfterError(s, error) else s.(status := Idle, lastError := "")
  }

  function AfterReboot(s: Stack): Stack { s.(status := Starting, progress := []) }

  datatype DisplayStatus = ShowsStarting | ShowsStopping | ShowsRunning | ShowsStopped

  method CountRunning(services: seq<string>) returns (running: nat)
    ensures running == multiset(services)["running"]
  {
    running := 0;
    for i := 0 to |services|
      invariant running == multiset(services[..i])["running"]
    {
      assert services[..i + 1] == services[..i] + [services[i]];
      if services[i] == "running" { running := running + 1; }
    }
    assert services[..|services|] == services;
  }

  class StackHandler {
    var status: Status
    var lastError: string
    var cancelBoot: Option<nat>
    var progressEvents: seq<ProgressEvent>

    constructor ()
      ensures State() == INITIAL
    {
      status, lastError, cancelBoot, progressEvents := Idle, "", None, [];
    }

    method Detect(services: seq<string>)
      modifies this
      ensures State() == AfterDetection(old(State()), services)
      ensures status == if 2 * multiset(services)["running"] > |services| then Running else old(status)
    {
      var running := CountRunning(services);
      if |services| > 0 && running > |services| / 2 { status := Running; }
    }

    function State(): Stack
      reads this
    {
      Stack(status, lastError, cancelBoot, progressEvents)
    }

    /** The refusal names the current status. */
    method PostStackUp() returns (conflict: Option<Status>)
      modifies this
      ensures conflict == if old(status) == Idle then None else Some(old(status))
      ensures conflict.Some? ==> State() == old(State())
      ensures conflict.None? ==> State() == Stack(Starting, "", old(cancelBoot), [])
      ensures AfterUp(old(State())) == if conflict.Some? then None else Some(State())
    {
      if status == Starting || status == Stopping || status == Running { return Some(status); }
      status := Starting;
      lastError := "";
      progressEvents := [];
      return None;
    }

    method PostStackDown() returns (conflict: Option<Status>)
      modifies this
      ensures conflict == if old(status) == Idle || old(status) == Running then None else Some(old(status))
      ensures conflict.Some? ==> State() == old(State())
      ensures conflict.None? ==> State() == Stack(Stopping, "", old(cancelBoot), [])
      ensures AfterDown(old(State())) == if conflict.Some? then None else Some(State())
    {
      if status == Starting || status == Stopping { return Some(status); }
      status := Stopping;
      lastError := "";
      progressEvents := [];
      return None;
    }

    /** Also says which boot, if any, it cancelled. */
    method PostStackCancel() returns (accepted: bool, cancelled: Option<nat>)
      modifies this
      ensures accepted <==> old(status) == Starting
      ensures cancelled == if accepted then old(cancelBoot) else None
      ensures !accepted ==> State() == old(State())
      ensures accepted ==> State() == Stack(Stopping, old(lastError), None, [])
      ensures AfterCancel(old(State())) == if accepted then Some(State()) else None
    {
      if status != Starting { return false, None; }
      cancelled := cancelBoot;
      status := Stopping;
      cancelBoot := None;
      progressEvents := [];
      accepted := true;
    }

    method SetCancel(boot: Option<nat>)
      modifies this
      ensures State() == old(State()).(cancelBoot := boot)
    {
      cancelBoot := boot;
    }

    method Progress(e: ProgressEvent)
      modifies this
      ensures State() == AfterProgress(old(State()), e)
      ensures State() == Stack(old(status), old(lastError), old(cancelBoot), old(progressEvents) + [e])
    {
      progressEvents := progressEvents + [e];
    }

    method FinishUp(error: Option<string>)
      modifies this
      ensures State() == AfterBoot(old(State()), error)
      ensures error.None? ==> State() == Stack(Running, old(lastError), old(cancelBoot), old(progressEvents))
      ensures error.Some? ==> State() == Stack(Idle, error.value, old(cancelBoot), old(progressEvents))
    {
      if error.Some? {
        status := Idle;
        lastError := error.value;
      } else {
        status := Running;
      }
    }

    method FinishDown(error: Option<string>)
      modifies this
      ensures State() == AfterTeardown(old(State()), error)
      ensures error.None? ==> State() == Stack(Idle, old(lastError), old(cancelBoot), old(progressEvents))
      ensures error.Some? ==> State() == Stack(Idle, error.value, old(cancelBoot), old(progressEvents))
    {
      status := Idle;
      if error.Some? { lastError := error.value; }
    }

    method BeginReboot()
      modifies this
      ensures State() == AfterReboot(old(State()))
      ensures State() == Stack(Starting, old(lastError), old(cancelBoot), [])
    {
      status := Starting;
      progressEvents := [];
    }

    method FinishCancel(error: Option<string>)
      modifies this
      ensures State() == AfterCancelTeardown(old(State()), error)
      ensures State() == Stack(Idle, if error.Some? then error.value else "", old(cancelBoot), old(progressEvents))
    {
      status := Idle;
      lastError := if error.Some? then error.value else "";
    }

    /** An idle stack is shown as stopped, whatever services run. */
    method GetStackStatusData(services: seq<string>)
      returns (shown: DisplayStatus, running: nat, total: nat, error: string, progress: seq<ProgressEvent>)
      ensures shown == ShowsStarting <==> status == Starting
      ensures shown == ShowsStopping <==> status == Stopping
      ensures shown == ShowsRunning <==> status == Running
      ensures running == multiset(services)["running"] && total == |services|
      ensures error == lastError && progress == progressEvents
    {
      error, progress := lastError, progressEvents;
      running := CountRunning(services);
      total := |services|;
      shown := match status
        case Starting => ShowsStarting
        case Stopping => ShowsStopping
        case Running => ShowsRunning
        case Idle => ShowsStopped;
    }
  }

  // ---- Requests and workers, interleaved ----

  /**
   * What a background worker is doing; `registered` once it has stored its cancel function.  A worker that is
   * clearing has reported its outcome, and has only its deferred reset of the cancel function left to do.
   */
  datatype Worker =
    | Booting(registered: bool)
    | TearingDown
    | Restarting
    | Rebooting(registered: bool)
    | Cancelling
    | Clearing

  datatype System = System(stack: Stack, workers: map<nat, Worker>, next: nat, cancels: nat, cancelled: set<nat>)

  datatype Request = Up | Down | Restart | Cancel

  /** Detection comes before everything else; the stack is idle until then. */
  datatype Event =
    | Detect(services: seq<string>)
    | Post(request: Request)
    | Register(id: nat)
    | Report(id: nat, event: ProgressEvent)
    | Finish(id: nat, error: Option<string>)
    | Reboot(id: nat)
    | Clear(id: nat)

  const START := System(INITIAL, map[], 0, 0, {})

  /** The worker is inside a backend call. */
  predicate Working(w: Worker) {
    w.TearingDown? || w.Restarting? || w.Cancelling? || ((w.Booting? || w.Rebooting?) && w.registered)
  }

  predicate Enabled(s: System, e: Event) {
    match e
    case Detect(_) => s == START
    case Post(_) => true
    case Register(id) =>
      id in s.workers && (s.workers[id].Booting? || s.workers[id].Rebooting?) && !s.workers[id].registered
    case Report(id, _) => id in s.workers && Working(s.workers[id])
    case Finish(id, error) => id in s.workers && Working(s.workers[id]) && (s.workers[id].Restarting? ==> error.Some?)
    case Reboot(id) => id in s.workers && s.workers[id].Restarting?
    case Clear(id) => id in s.workers && s.workers[id].Clearing?
  }

  function Accepts(stack: Stack, r: Request): Option<Stack> {
    match r
    case Up => AfterUp(stack)
    case Down => AfterDown(stack)
    case Restart => AfterDown(stack)
    case Cancel => AfterCancel(stack)
  }

  function WorkerFor(r: Request): Worker {
    match r case Up => Booting(false) case Down => TearingDown case Restart => Restarting case Cancel => Cancelling
  }

  function Outcome(stack: Stack, w: Worker, error: Option<string>): Stack {
    match w
    case Booting(_) => AfterBoot(stack, error)
    case TearingDown => AfterTeardown(stack, error)
    case Restarting => AfterError(stack, error)
    case Rebooting(_) => AfterTeardown(stack, error)
    case Cancelling => AfterCancelTeardown(stack, error)
    case Clearing => stack
  }

  function Step(s: System, e: Event): System
    requires Enabled(s, e)
  {
    match e
    case Detect(services) => s.(stack := AfterDetection(s.stack, services))
    case Post(r) =>
      var accepted := Accepts(s.stack, r);
      if accepted.None? then s
      else System(
        accepted.value, s.workers[s.next := WorkerFor(r)], s.next + 1,
        if r.Cancel? then s.cancels + 1 else s.cancels,
        if r.Cancel? && s.stack.cancelBoot.Some? then s.cancelled + {s.stack.cancelBoot.value} else s.cancelled)
    case Register(id) =>
      s.(stack := s.stack.(cancelBoot := Some(id)), workers := s.workers[id := s.workers[id].(registered := true)])
    case Report(id, event) => s.(stack := AfterProgress(s.stack, event))
    case Finish(id, error) =>
      var w := s.workers[id];
      s.(stack := Outcome(s.stack, w, error),
         workers := if w.Booting? || w.Rebooting? then s.workers[id := Clearing] else s.workers - {id})
    case Reboot(id) => s.(stack := AfterReboot(s.stack), workers := s.workers[id := Rebooting(false)])
    case Clear(id) => s.(stack := s.stack.(cancelBoot := None), workers := s.workers - {id})
  }

  predicate Valid(events: seq<Event>)
    decreases |events|, 0
  {
    events == [] || (Valid(events[..|events| - 1]) && Enabled(Run(events[..|events| - 1]), events[|events| - 1]))
  }

  function Run(events: seq<Event>): System
    requires Valid(events)
    decreases |events|, 1
  {
    if events == [] then START else Step(Run(events[..|events| - 1]), events[|events| - 1])
  }

  /** Workers that have not reported their outcome. */
  function InFlight(s: System): set<nat> {
    set id | id in s.workers && !s.workers[id].Clearing?
  }

  predicate FreshIds(s: System) { forall id | id in s.workers :: id < s.next }

  lemma {:induction false} IdsAreFresh(events: seq<Event>)
    requires Valid(events)
    ensures FreshIds(Run(events))
    decreases |events|
  {
    if events == [] {
    } else {
      IdsAreFresh(events[..|events| - 1]);
    }
  }

  lemma InFlightStep(s: System, e: Event)
    requires Enabled(s, e) && FreshIds(s)
    ensures var next := Step(s, e);
      InFlight(next) == match e
        case Post(r) => InFlight(s) + (if Accepts(s.stack, r).Some? then {s.next} else {})
        case Finish(id, _) => InFlight(s) - {id}
        case _ => InFlight(s)
  {
  }

  lemma BoundStep(s: System, e: Event, bound: int)
    requires Enabled(s, e) && FreshIds(s)
    requires bound == s.cancels + if Busy(s.stack.status) then 1 else 0
    requires |InFlight(s)| <= bound
    ensures var t := Step(s, e); |InFlight(t)| <= t.cancels + if Busy(t.stack.status) then 1 else 0
  {
    InFlightStep(s, e);
  }

  /**
   * In every interleaving there is at most one worker for each accepted cancel, and one more while the stack is busy.
   */
  lemma {:induction false} WorkersBounded(events: seq<Event>)
    requires Valid(events)
    ensures var s := Run(events); |InFlight(s)| <= s.cancels + if Busy(s.stack.status) then 1 else 0
    decreases |events|
  {
    if events == [] {
    } else {
      var before, e := events[..|events| - 1], events[|events| - 1];
      WorkersBounded(before);
      IdsAreFresh(before);
      var s := Run(before);
      BoundStep(s, e, s.cancels + if Busy(s.stack.status) then 1 else 0);
    }
  }

  lemma RunSnoc(events: seq<Event>, e: Event)
    requires Valid(events) && Enabled(Run(events), e)
    ensures Valid(events + [e]) && Run(events + [e]) == Step(Run(events), e)
  {
    assert (events + [e])[..|events|] == events;
  }

  // ---- The bound is tight ----

  /** After `k` rounds of boot, cancel and failing boot, `k` teardowns are under way and the stack is idle. */
  lemma {:induction false} BoundIsReachedIdle(k: nat) returns (events: seq<Event>)
    ensures Valid(events) && Run(events).cancels == k && |InFlight(Run(events))| == k
    ensures Run(events).stack.status == Idle
  {
    if k == 0 {
      events := [];
    } else {
      events := BoundIsReachedIdle(k - 1);
      events := OneMoreRound(events);
    }
  }

  lemma OneMoreRound(before: seq<Event>) returns (events: seq<Event>)
    requires Valid(before) && Run(before).stack.status == Idle
    ensures Valid(events) && Run(events).stack.status == Idle && Run(events).cancels == Run(before).cancels + 1
    ensures |InFlight(Run(events))| == |InFlight(Run(before))| + 1
  {
    var id, flying := Run(before).next, InFlight(Run(before));
    IdsAreFresh(before);
    assert id !in flying && id + 1 !in flying;
    var booting := Booted(before);
    var cancelling := Cancelled(booting, id);
    events := BootFails(cancelling, id);
    OneReplaced(flying, id);
  }

  lemma OneReplaced(flying: set<nat>, id: nat)
    requires id !in flying && id + 1 !in flying
    ensures |flying + {id} + {id + 1} - {id}| == |flying| + 1
  {
    assert flying + {id} + {id + 1} - {id} == flying + {id + 1};
  }

  lemma Cancelled(before: seq<Event>, id: nat) returns (events: seq<Event>)
    requires Valid(before) && Run(before).stack.status == Starting
    requires id in Run(before).workers && Run(before).workers[id] == Booting(true)
    ensures Valid(events)
    ensures var s, t := Run(before), Run(events);
      && t.cancels == s.cancels + 1 && InFlight(t) == InFlight(s) + {s.next}
      && id in t.workers && t.workers[id] == Booting(true)
  {
    IdsAreFresh(before);
    InFlightStep(Run(before), Post(Cancel));
    events := Then(before, Post(Cancel), Run(before));
  }

  lemma BootFails(before: seq<Event>, id: nat) returns (events: seq<Event>)
    requires Valid(before) && id in Run(before).workers && Run(before).workers[id] == Booting(true)
    ensures Valid(events)
    ensures var s, t := Run(before), Run(events);
      t.stack.status == Idle && t.cancels == s.cancels && InFlight(t) == InFlight(s) - {id}
  {
    var failed := Finish(id, Some("context canceled"));
    IdsAreFresh(before);
    InFlightStep(Run(before), failed);
    events := Then(before, failed, Run(before));
  }

  /** An idle stack, with a boot begun and its cancel function stored. */
  lemma Booted(before: seq<Event>) returns (events: seq<Event>)
    requires Valid(before) && Run(before).stack.status == Idle
    ensures Valid(events)
    ensures var s, t := Run(before), Run(events);
      && t.stack.status == Starting && t.cancels == s.cancels && t.next == s.next + 1
      && s.next in t.workers && t.workers[s.next] == Booting(true) && InFlight(t) == InFlight(s) + {s.next}
  {
    var s := Run(before);
    IdsAreFresh(before);
    var one := Then(before, Post(Up), s);
    InFlightStep(s, Post(Up));
    IdsAreFresh(one);
    events := Then(one, Register(s.next), Run(one));
    InFlightStep(Run(one), Register(s.next));
  }

  /** Another request then makes it one more than the accepted cancels. */
  lemma BoundIsReachedBusy(k: nat) returns (events: seq<Event>)
    ensures Valid(events) && Run(events).cancels == k && |InFlight(Run(events))| == k + 1
    ensures Busy(Run(events).stack.status)
  {
    events := BoundIsReachedIdle(k);
    IdsAreFresh(events);
    InFlightStep(Run(events), Post(Down));
    RunSnoc(events, Post(Down));
    assert Run(events).next !in InFlight(Run(events));
    events := events + [Post(Down)];
  }

  // ---- Runs without accepted cancels ----

  function SinceAfter(e: Event, id: nat, since: seq<ProgressEvent>): seq<ProgressEvent> {
    if e.Report? && e.id == id then since + [e.event] else if e.Reboot? && e.id == id then [] else since
  }

  /** What the worker has reported since the stack last began something new. */
  function EventsSinceReset(events: seq<Event>, id: nat): seq<ProgressEvent> {
    if events == [] then []
    else
      var before, e := events[..|events| - 1], events[|events| - 1];
      SinceAfter(e, id, EventsSinceReset(before, id))
  }

  lemma {:induction false} NoReportsYet(events: seq<Event>, id: nat)
    requires Valid(events) && id >= Run(events).next
    ensures EventsSinceReset(events, id) == []
    decreases |events|
  {
    if events == [] {
    } else {
      IdsAreFresh(events[..|events| - 1]);
      NoReportsYet(events[..|events| - 1], id);
    }
  }

  /** The one worker and the status it works under. */
  predicate Matches(status: Status, w: Worker) {
    match w
    case Booting(_) => status == Starting
    case Rebooting(_) => status == Starting
    case TearingDown => status == Stopping
    case Restarting => status == Stopping
    case Cancelling => false
    case Clearing => true
  }

  predicate Orderly(s: System) {
    && FreshIds(s)
    && (forall id | id in s.workers ::
         Matches(s.stack.status, s.workers[id]) && (id + 1 == s.next || s.workers[id].Clearing?))
    && (Busy(s.stack.status) ==> s.next > 0 && s.next - 1 in InFlight(s))
  }

  lemma OrderlyStep(s: System, e: Event)
    requires Enabled(s, e) && Orderly(s) && Step(s, e).cancels == 0 == s.cancels
    ensures Orderly(Step(s, e))
  {
  }

  lemma {:induction false} OrderlyRuns(events: seq<Event>)
    requires Valid(events) && Run(events).cancels == 0
    ensures Orderly(Run(events))
    decreases |events|
  {
    if events == [] {
    } else {
      OrderlyRuns(events[..|events| - 1]);
      OrderlyStep(Run(events[..|events| - 1]), events[|events| - 1]);
    }
  }

  lemma OrderlyInFlight(s: System)
    requires Orderly(s)
    ensures Busy(s.stack.status) <==> InFlight(s) != {}
    ensures forall id | id in InFlight(s) :: id + 1 == s.next
  {
    if InFlight(s) != {} {
      var id := Member(InFlight(s));
      assert Matches(s.stack.status, s.workers[id]);
    }
  }

  /** One step of the progress list, when `newest` is what the newest worker has reported. */
  lemma NewestProgress(s: System, e: Event, newest: seq<ProgressEvent>)
    requires Enabled(s, e) && FreshIds(s) && Step(s, e).cancels == 0 == s.cancels
    requires forall id | id in InFlight(s) :: id + 1 == s.next
    requires s.stack.progress == if s.next == 0 then [] else newest
    ensures Step(s, e).next == s.next || Step(s, e).next == s.next + 1
    ensures var t := Step(s, e);
      t.stack.progress == if t.next == 0 then [] else SinceAfter(e, t.next - 1, if t.next == s.next then newest else [])
  {
    if e.Report? || e.Reboot? {
      assert e.id in InFlight(s);
    }
  }

  lemma NewestSince(before: seq<Event>, e: Event, s: System, t: System, newest: seq<ProgressEvent>)
    requires t.next == s.next || t.next == s.next + 1
    requires newest == (if s.next == 0 then [] else EventsSinceReset(before, s.next - 1))
    requires EventsSinceReset(before, s.next) == []
    requires t.stack.progress
          == if t.next == 0 then [] else SinceAfter(e, t.next - 1, if t.next == s.next then newest else [])
    ensures t.stack.progress == if t.next == 0 then [] else EventsSinceReset(before + [e], t.next - 1)
  {
    assert (before + [e])[..|before|] == before;
  }

  ghost predicate NewestReported(events: seq<Event>, s: System) {
    s.stack.progress == if s.next == 0 then [] else EventsSinceReset(events, s.next - 1)
  }

  lemma NewestReportedSnoc(before: seq<Event>, e: Event, s: System, t: System)
    requires Valid(before) && Run(before) == s && NewestReported(before, s)
    requires Enabled(s, e) && t == Step(s, e) && s.cancels == 0 == t.cancels
    ensures NewestReported(before + [e], t)
  {
    OrderlyRuns(before);
    OrderlyInFlight(s);
    NoReportsYet(before, s.next);
    NewestProgress(s, e, s.stack.progress);
    NewestSince(before, e, s, t, s.stack.progress);
  }

  lemma StepOfRun(before: seq<Event>, e: Event)
    requires Valid(before + [e])
    ensures Valid(before) && Enabled(Run(before), e) && Run(before + [e]) == Step(Run(before), e)
    ensures Run(before).cancels <= Run(before + [e]).cancels
  {
    assert (before + [e])[..|before|] == before;
  }

  lemma {:induction false} ProgressOfNewest(events: seq<Event>)
    requires Valid(events) && Run(events).cancels == 0
    ensures NewestReported(events, Run(events))
    decreases |events|
  {
    if events == [] {
    } else {
      var before, e := events[..|events| - 1], events[|events| - 1];
      assert events == before + [e];
      StepOfRun(before, e);
      ProgressOfNewest(before);
      NewestReportedSnoc(before, e, Run(before), Run(events));
    }
  }

  /**
   * Without an accepted cancel, a worker is in flight exactly while the stack is busy, only the newest one
   * ever is, and the progress list is what the newest worker has reported since its last reset.
   */
  lemma CancelFreeRuns(events: seq<Event>)
    requires Valid(events) && Run(events).cancels == 0
    ensures var s := Run(events);
      && Orderly(s)
      && (Busy(s.stack.status) <==> InFlight(s) != {})
      && (forall id | id in InFlight(s) :: id + 1 == s.next)
      && s.stack.progress == if s.next == 0 then [] else EventsSinceReset(events, s.next - 1)
  {
    OrderlyRuns(events);
    OrderlyInFlight(Run(events));
    ProgressOfNewest(events);
  }

  // ---- Which event left the status and the error ----

  /** What happened last of what a function of time sets is `x`; before anything it is `start`. */
  ghost predicate IsLastSet<T(!new)>(n: nat, sets: nat -> Option<T>, start: T, x: T) {
    || (exists i: nat :: i < n && sets(i) == Some(x) && forall j: nat | i < j < n :: sets(j) == None)
    || (x == start && forall j: nat | j < n :: sets(j) == None)
  }

  lemma LastSetSnoc<T(!new)>(n: nat, before: nat -> Option<T>, now: nat -> Option<T>, start: T, x: T)
    requires forall j: nat | j < n :: now(j) == before(j)
    ensures IsLastSet(n + 1, now, start, x)
            <==> if now(n).Some? then now(n).value == x else IsLastSet(n, before, start, x)
  {
    if now(n) == None {
      if i: nat :| i < n && before(i) == Some(x) && forall j: nat | i < j < n :: before(j) == None {
        assert now(i) == Some(x) && forall j: nat | i < j < n + 1 :: now(j) == None;
      }
      if i: nat :| i < n + 1 && now(i) == Some(x) && forall j: nat | i < j < n + 1 :: now(j) == None {
        assert before(i) == Some(x) && forall j: nat | i < j < n :: before(j) == None;
      }
    }
  }

  /** The status that an event leaves, if it sets one: by what the request, the worker and its outcome are. */
  function SetsStatus(s: System, e: Event): Option<Status> {
    match e
    case Detect(services) => if 2 * multiset(services)["running"] > |services| then Some(Running) else None
    case Post(Up) => if s.stack.status == Idle then Some(Starting) else None
    case Post(Down) => if s.stack.status == Idle || s.stack.status == Running then Some(Stopping) else None
    case Post(Restart) => if s.stack.status == Idle || s.stack.status == Running then Some(Stopping) else None
    case Post(Cancel) => if s.stack.status == Starting then Some(Stopping) else None
    case Finish(id, error) =>
      if id in s.workers && s.workers[id].Booting? && error.None? then Some(Running) else Some(Idle)
    case Reboot(_) => Some(Starting)
    case Register(_) => None
    case Report(_, _) => None
    case Clear(_) => None
  }

  /** The error that an event leaves: a new beginning and a completed cancel clear it, a failed worker sets it. */
  function SetsError(s: System, e: Event): Option<string> {
    match e
    case Post(Cancel) => None
    case Post(_) => if SetsStatus(s, e).Some? then Some("") else None
    case Finish(id, error) =>
      if error.Some? then error else if id in s.workers && s.workers[id].Cancelling? then Some("") else None
    case _ => None
  }

  lemma SetsStep(s: System, e: Event)
    requires Enabled(s, e)
    ensures Step(s, e).stack.status == if SetsStatus(s, e).Some? then SetsStatus(s, e).value else s.stack.status
    ensures Step(s, e).stack.lastError == if SetsError(s, e).Some? then SetsError(s, e).value else s.stack.lastError
  {
  }

  ghost function StatusSets(events: seq<Event>): nat -> Option<Status> {
    (j: nat) => if j < |events| && Valid(events[..j]) then SetsStatus(Run(events[..j]), events[j]) else None
  }

  ghost function ErrorSets(events: seq<Event>): nat -> Option<string> {
    (j: nat) => if j < |events| && Valid(events[..j]) then SetsError(Run(events[..j]), events[j]) else None
  }

  lemma SetsEarlier(before: seq<Event>, e: Event, j: nat)
    requires j < |before|
    ensures StatusSets(before + [e])(j) == StatusSets(before)(j)
    ensures ErrorSets(before + [e])(j) == ErrorSets(before)(j)
  {
    assert (before + [e])[..j] == before[..j];
  }

  lemma SetsSnoc(before: seq<Event>, e: Event)
    requires Valid(before)
    ensures StatusSets(before + [e])(|before|) == SetsStatus(Run(before), e)
    ensures ErrorSets(before + [e])(|before|) == SetsError(Run(before), e)
  {
    assert (before + [e])[..|before|] == before;
  }

  /** In every run the status is what the last event that set one left; nothing has set it, it is idle. */
  lemma {:induction false} StatusIsLastSet(events: seq<Event>, x: Status)
    requires Valid(events)
    ensures Run(events).stack.status == x <==> IsLastSet(|events|, StatusSets(events), Idle, x)
    decreases |events|
  {
    if events == [] {
    } else {
      var before, e := events[..|events| - 1], events[|events| - 1];
      assert events == before + [e];
      StepOfRun(before, e);
      StatusIsLastSet(before, x);
      SetsSnoc(before, e);
      SetsStep(Run(before), e);
      forall j: nat | j < |before| ensures StatusSets(events)(j) == StatusSets(before)(j) {
        SetsEarlier(before, e, j);
      }
      LastSetSnoc(|before|, StatusSets(before), StatusSets(events), Idle, x);
    }
  }

  /** So is the error. */
  lemma {:induction false} ErrorIsLastSet(events: seq<Event>, x: string)
    requires Valid(events)
    ensures Run(events).stack.lastError == x <==> IsLastSet(|events|, ErrorSets(events), "", x)
    decreases |events|
  {
    if events == [] {
    } else {
      var before, e := events[..|events| - 1], events[|events| - 1];
      assert events == before + [e];
      StepOfRun(before, e);
      ErrorIsLastSet(before, x);
      SetsSnoc(before, e);
      SetsStep(Run(before), e);
      forall j: nat | j < |before| ensures ErrorSets(events)(j) == ErrorSets(before)(j) {
        SetsEarlier(before, e, j);
      }
      LastSetSnoc(|before|, ErrorSets(before), ErrorSets(events), "", x);
    }
  }

  /** A boot's worker reports success there, or most services are found running. */
  ghost predicate RunsFrom(events: seq<Event>, i: nat) {
    && i < |events| && Valid(events[..i])
    && match events[i]
       case Finish(id, error) =>
         error.None? && id in Run(events[..i]).workers && Run(events[..i]).workers[id].Booting?
       case Detect(services) => 2 * multiset(services)["running"] > |services|
       case _ => false
  }

  ghost function RunStarts(events: seq<Event>): nat -> bool {
    (i: nat) => RunsFrom(events, i)
  }

  lemma RunsFromSets(events: seq<Event>, i: nat)
    ensures StatusSets(events)(i) == Some(Running) <==> RunsFrom(events, i)
  {
  }

  /** From event `i` on the stack is running, and nothing has set its status since. */
  ghost predicate RunningSince(n: nat, sets: nat -> Option<Status>, runs: nat -> bool, i: nat) {
    i < n && runs(i) && forall j: nat | i < j < n :: sets(j) == None
  }

  lemma LastSetRuns(n: nat, sets: nat -> Option<Status>, runs: nat -> bool)
    requires forall i: nat :: sets(i) == Some(Running) <==> runs(i)
    ensures IsLastSet(n, sets, Idle, Running) <==> exists i: nat :: RunningSince(n, sets, runs, i)
  {
    if i: nat :| i < n && sets(i) == Some(Running) && forall j: nat | i < j < n :: sets(j) == None {
      assert RunningSince(n, sets, runs, i);
    }
  }

  /** The stack is running exactly from a completed boot, or its detection, until something sets the status again. */
  lemma RunningIff(events: seq<Event>)
    requires Valid(events)
    ensures Run(events).stack.status == Running
            <==> exists i: nat :: RunningSince(|events|, StatusSets(events), RunStarts(events), i)
  {
    StatusIsLastSet(events, Running);
    forall i: nat ensures StatusSets(events)(i) == Some(Running) <==> RunsFrom(events, i) {
      RunsFromSets(events, i);
    }
    LastSetRuns(|events|, StatusSets(events), RunStarts(events));
  }

  /** So a completed boot refuses another one until a teardown, restart or failure. */
  lemma BootedRefusesUp(events: seq<Event>, i: nat)
    requires Valid(events) && RunsFrom(events, i)
    requires forall j: nat | i < j < |events| :: StatusSets(events)(j) == None
    ensures Step(Run(events), Post(Up)) == Run(events)
  {
    RunningIff(events);
    assert RunningSince(|events|, StatusSets(events), RunStarts(events), i);
  }

  /** A worker that fails leaves the stack idle with its error. */
  lemma FailureIsShown(s: System, id: nat, error: string)
    requires Enabled(s, Finish(id, Some(error)))
    ensures Step(s, Finish(id, Some(error))).stack.status == Idle
    ensures Step(s, Finish(id, Some(error))).stack.lastError == error
  {
    SetsStep(s, Finish(id, Some(error)));
  }

  /** A restart that boots again leaves the stack idle all the same. */
  lemma RestartEndsIdle(s: System, id: nat)
    requires Enabled(s, Finish(id, None)) && s.workers[id].Rebooting?
    ensures Step(s, Finish(id, None)).stack.status == Idle
    ensures Step(s, Finish(id, None)).stack.lastError == s.stack.lastError
  {
    SetsStep(s, Finish(id, None));
  }

  // ---- Which reports the progress list holds ----

  lemma {:induction false} ValidPrefix(events: seq<Event>, n: nat)
    requires Valid(events) && n <= |events|
    ensures Valid(events[..n])
    ensures n < |events| ==> Enabled(Run(events[..n]), events[n])
    decreases |events|
  {
    if n == |events| {
      assert events[..n] == events;
    } else {
      var before := events[..|events| - 1];
      if n < |events| - 1 { ValidPrefix(before, n); }
      assert before[..n] == events[..n];
    }
  }

  /** The event begins something new: a request that is accepted, or the second half of a restart. */
  predicate IsReset(stack: Stack, e: Event) {
    e.Reboot? || (e.Post? && Accepts(stack, e.request).Some?)
  }

  ghost predicate ResetAt(events: seq<Event>, j: nat) {
    j < |events| && Valid(events[..j]) && IsReset(Run(events[..j]).stack, events[j])
  }

  /** Everything reported, by whichever worker. */
  function Reports(events: seq<Event>): seq<ProgressEvent> {
    if events == [] then []
    else
      var n := |events| - 1;
      Reports(events[..n]) + if events[n].Report? then [events[n].event] else []
  }

  /** At which events of the run something new begins. */
  ghost function Resets(events: seq<Event>): nat -> bool {
    (j: nat) => ResetAt(events, j)
  }

  lemma ResetSnoc(before: seq<Event>, e: Event)
    requires Valid(before)
    ensures var was, now := Resets(before), Resets(before + [e]);
      && (forall j: nat | j < |before| :: now(j) <==> was(j))
      && (now(|before|) <==> IsReset(Run(before).stack, e))
  {
    var events := before + [e];
    assert events[..|before|] == before;
    forall j: nat | j < |before| ensures ResetAt(events, j) <==> ResetAt(before, j) {
      assert before[..j] == events[..j];
    }
  }

  lemma ProgressStep(s: System, e: Event)
    requires Enabled(s, e)
    ensures Step(s, e).stack.progress ==
      if IsReset(s.stack, e) then [] else if e.Report? then s.stack.progress + [e.event] else s.stack.progress
  {
  }

  lemma ReportsSnoc(events: seq<Event>, e: Event)
    ensures Reports(events + [e]) == if e.Report? then Reports(events) + [e.event] else Reports(events)
  {
    assert (events + [e])[..|events|] == events;
  }

  /** Among the first `n` times, `holds` is last true at `k - 1`, or never if `k` is 0. */
  ghost predicate IsLast(n: nat, k: nat, holds: nat -> bool) {
    k <= n && (k == 0 || holds(k - 1)) && forall j: nat | k <= j < n :: !holds(j)
  }

  lemma OneMoreTime(n: nat, k: nat, was: nat -> bool, now: nat -> bool)
    requires IsLast(n, k, was) && forall j: nat | j < n :: now(j) <==> was(j)
    ensures IsLast(n + 1, if now(n) then n + 1 else k, now)
  {
  }

  /** The run began something new for the last time just before its `k`-th event, or never if `k` is 0. */
  ghost predicate LastReset(events: seq<Event>, k: nat) {
    IsLast(|events|, k, Resets(events))
  }

  lemma LastResetSnoc(before: seq<Event>, e: Event, k: nat)
    requires Valid(before) && LastReset(before, k)
    ensures LastReset(before + [e], if IsReset(Run(before).stack, e) then |before| + 1 else k)
  {
    ResetSnoc(before, e);
    OneMoreTime(|before|, k, Resets(before), Resets(before + [e]));
  }

  lemma ReportsFromSnoc(before: seq<Event>, e: Event, k: nat)
    requires k <= |before|
    ensures Reports((before + [e])[k..]) == Reports(before[k..]) + if e.Report? then [e.event] else []
  {
    assert (before + [e])[k..] == before[k..] + [e];
    ReportsSnoc(before[k..], e);
  }

  lemma ReportedSnoc(before: seq<Event>, e: Event, k: nat, s: System)
    requires k <= |before| && Enabled(s, e) && s.stack.progress == Reports(before[k..])
    ensures Step(s, e).stack.progress == if IsReset(s.stack, e) then [] else Reports((before + [e])[k..])
  {
    ProgressStep(s, e);
    ReportsFromSnoc(before, e, k);
  }

  /** In every run the progress list holds the reports of all workers since the last reset, in order. */
  lemma {:induction false} ProgressSinceReset(events: seq<Event>) returns (k: nat)
    requires Valid(events)
    ensures LastReset(events, k) && Run(events).stack.progress == Reports(events[k..])
    decreases |events|
  {
    if events == [] {
      k := 0;
    } else {
      var before, e := events[..|events| - 1], events[|events| - 1];
      assert events == before + [e];
      StepOfRun(before, e);
      k := ProgressSinceReset(before);
      LastResetSnoc(before, e, k);
      ReportedSnoc(before, e, k, Run(before));
      k := if IsReset(Run(before).stack, e) then |before| + 1 else k;
    }
  }

  /** A worker reports only while it is in flight; `WorkersBounded` says how many those are. */
  lemma ReporterInFlight(events: seq<Event>, j: nat)
    requires Valid(events) && j < |events| && events[j].Report?
    ensures Valid(events[..j]) && events[j].id in InFlight(Run(events[..j]))
  {
    ValidPrefix(events, j);
  }

  // ---- Which boot a cancel reaches ----

  ghost predicate AcceptedCancelAt(events: seq<Event>, j: nat) {
    j < |events| && events[j] == Post(Cancel) && Valid(events[..j]) && Run(events[..j]).stack.status == Starting
  }

  /** Boot `w` stored its cancel function at `i`, and nothing has replaced or dropped it since. */
  ghost predicate StoredAt(events: seq<Event>, i: nat, w: nat) {
    && i < |events| && events[i] == Register(w)
    && forall j: nat | i < j < |events| :: !events[j].Register? && !events[j].Clear? && !AcceptedCancelAt(events, j)
  }

  ghost predicate Stored(events: seq<Event>, w: nat) {
    exists i: nat :: StoredAt(events, i, w)
  }

  lemma StoredSnoc(before: seq<Event>, e: Event, w: nat)
    requires Valid(before) && Enabled(Run(before), e)
    ensures Stored(before + [e], w) <==>
      if e.Register? then e.id == w
      else Stored(before, w) && !e.Clear? && !(e == Post(Cancel) && Run(before).stack.status == Starting)
  {
    var events, n := before + [e], |before|;
    assert events[..n] == before && events[n] == e;
    forall j: nat | j < n ensures AcceptedCancelAt(events, j) <==> AcceptedCancelAt(before, j) {
      assert before[..j] == events[..j];
    }
    if e == Register(w) {
      assert StoredAt(events, n, w);
    }
    forall i: nat | i < n
      ensures StoredAt(events, i, w)
              <==> StoredAt(before, i, w) && !e.Register? && !e.Clear? && !AcceptedCancelAt(events, n)
    {
      if StoredAt(events, i, w) {
        assert !events[n].Register? && !events[n].Clear? && !AcceptedCancelAt(events, n);
        forall j: nat | i < j < n ensures !before[j].Register? && !before[j].Clear? && !AcceptedCancelAt(before, j) {
          assert before[j] == events[j];
        }
      }
    }
  }

  /** In every run the stored function is that of the last boot to have stored one, unless it was dropped since. */
  lemma {:induction false} CancelBootIff(events: seq<Event>, w: nat)
    requires Valid(events)
    ensures Run(events).stack.cancelBoot == Some(w) <==> Stored(events, w)
    decreases |events|
  {
    if events == [] {
    } else {
      var before, e := events[..|events| - 1], events[|events| - 1];
      assert events == before + [e];
      CancelBootIff(before, w);
      StoredSnoc(before, e, w);
    }
  }

  /** In every run an accepted cancel cancels exactly the boot whose function is stored. */
  lemma CancelReachesIff(events: seq<Event>, w: nat)
    requires Valid(events) && Run(events).stack.status == Starting
    ensures w in Step(Run(events), Post(Cancel)).cancelled <==> w in Run(events).cancelled || Stored(events, w)
  {
    CancelBootIff(events, w);
  }

  lemma {:induction false} Counters(events: seq<Event>, n: nat)
    requires Valid(events) && n <= |events|
    ensures Valid(events[..n]) && Run(events[..n]).next <= Run(events).next
    ensures Run(events[..n]).cancels <= Run(events).cancels
    decreases |events|
  {
    ValidPrefix(events, n);
    if n == |events| {
      assert events[..n] == events;
    } else {
      var before := events[..|events| - 1];
      Counters(before, n);
      assert before[..n] == events[..n];
    }
  }

  /** Whatever was cancelled is older than the newest worker, which tears it down. */
  lemma {:induction false} CancelledAreOlder(events: seq<Event>)
    requires Valid(events)
    ensures forall id | id in Run(events).cancelled :: id + 1 < Run(events).next
    ensures Run(events).stack.cancelBoot.Some? ==> Run(events).stack.cancelBoot.value < Run(events).next
    decreases |events|
  {
    if events == [] {
    } else {
      var before := events[..|events| - 1];
      CancelledAreOlder(before);
      IdsAreFresh(before);
    }
  }

  /** The newest worker stored its function at `i`, and no boot has stored or cleared one since. */
  ghost predicate UntouchedSince(events: seq<Event>, i: nat, w: nat) {
    i < |events| && events[i] == Register(w) && forall j: nat | i < j < |events| ::
      !events[j].Register? && !events[j].Clear?
  }

  lemma NextGrows(events: seq<Event>, i: nat, j: nat)
    requires Valid(events) && i <= j <= |events|
    ensures Valid(events[..i]) && Valid(events[..j]) && Run(events[..i]).next <= Run(events[..j]).next
  {
    Counters(events, j);
    Counters(events[..j], i);
    assert events[..j][..i] == events[..i];
  }

  lemma CancelAdvances(events: seq<Event>, j: nat)
    requires Valid(events) && AcceptedCancelAt(events, j)
    ensures Run(events[..j]).next < Run(events).next
  {
    Counters(events, j + 1);
    assert events[..j + 1][..j] == events[..j];
  }

  lemma StoresOwn(events: seq<Event>, i: nat, w: nat)
    requires Valid(events) && i < |events| && events[i] == Register(w)
    ensures Valid(events[..i]) && w < Run(events[..i]).next
  {
    ValidPrefix(events, i);
    IdsAreFresh(events[..i]);
  }

  /** After the newest worker stored its function no cancel was accepted: that would have started a newer one. */
  lemma NoCancelSince(events: seq<Event>, i: nat, w: nat, j: nat)
    requires Valid(events) && w + 1 == Run(events).next && i < |events| && events[i] == Register(w) && i < j < |events|
    ensures !AcceptedCancelAt(events, j)
  {
    StoresOwn(events, i, w);
    NextGrows(events, i, j);
    if AcceptedCancelAt(events, j) { CancelAdvances(events, j); }
  }

  /**
   * A cancel reaches the newest worker exactly when that worker has stored its cancel function and, since then, no
   * boot has stored another and no finished one has cleared it.
   */
  lemma CancelReachesNewestIff(events: seq<Event>, w: nat)
    requires Valid(events) && Run(events).stack.status == Starting && w + 1 == Run(events).next
    ensures w in Step(Run(events), Post(Cancel)).cancelled <==> exists i: nat :: UntouchedSince(events, i, w)
  {
    CancelReachesIff(events, w);
    CancelledAreOlder(events);
    if i: nat :| StoredAt(events, i, w) {
      assert UntouchedSince(events, i, w);
    }
    if i: nat :| UntouchedSince(events, i, w) {
      forall j: nat | i < j < |events| ensures !AcceptedCancelAt(events, j) {
        NoCancelSince(events, i, w, j);
      }
      assert StoredAt(events, i, w);
    }
  }

  /** Without accepted cancels only the newest worker stores anything once it is in flight. */
  lemma OnlyNewestStores(events: seq<Event>, i: nat, w: nat, j: nat)
    requires Valid(events) && Run(events).cancels == 0 && w + 1 == Run(events).next
    requires i < |events| && events[i] == Register(w) && i < j < |events| && events[j].Register?
    ensures events[j] == Register(w)
  {
    ValidPrefix(events, i);
    ValidPrefix(events, j);
    IdsAreFresh(events[..i]);
    Counters(events, j);
    Counters(events[..j], i);
    assert events[..j][..i] == events[..i];
    CancelFreeRuns(events[..j]);
    assert events[j].id in InFlight(Run(events[..j]));
  }

  lemma {:induction false} LastStore(events: seq<Event>, i: nat, w: nat) returns (k: nat)
    requires Valid(events) && Run(events).cancels == 0 && w + 1 == Run(events).next
    requires i < |events| && events[i] == Register(w)
    ensures i <= k < |events| && events[k] == Register(w) && forall j: nat | k < j < |events| :: !events[j].Register?
    decreases |events| - i
  {
    if j: nat :| i < j < |events| && events[j].Register? {
      OnlyNewestStores(events, i, w, j);
      k := LastStore(events, j, w);
    } else {
      k := i;
    }
  }

  /**
   * In a run without accepted cancels, a cancel reaches the boot under way unless it comes before that boot has
   * stored its function, or after a finished boot's deferred reset.
   */
  lemma FirstCancelReachesIff(events: seq<Event>, w: nat)
    requires Valid(events) && Run(events).cancels == 0
    requires Run(events).stack.status == Starting && w in InFlight(Run(events))
    ensures w in Step(Run(events), Post(Cancel)).cancelled
            <==> exists i: nat :: i < |events| && events[i] == Register(w) && forall j: nat | i < j < |events| ::
              !events[j].Clear?
  {
    CancelFreeRuns(events);
    CancelReachesNewestIff(events, w);
    if i: nat :| i < |events| && events[i] == Register(w) && forall j: nat | i < j < |events| :: !events[j].Clear? {
      var k := LastStore(events, i, w);
      assert UntouchedSince(events, k, w);
    }
  }

  // ---- What a cancel can leave behind ----

  lemma Then(events: seq<Event>, e: Event, s: System) returns (longer: seq<Event>)
    requires Valid(events) && Run(events) == s && Enabled(s, e)
    ensures Valid(longer) && Run(longer) == Step(s, e)
  {
    RunSnoc(events, e);
    longer := events + [e];
  }

  /** A boot has failed, and its worker still has its deferred reset to do. */
  function FailedBoot(error: string): System {
    System(Stack(Idle, error, Some(0), []), map[0 := Clearing], 1, 0, {})
  }

  lemma BootThatFails(error: string) returns (events: seq<Event>)
    ensures Valid(events) && Run(events) == FailedBoot(error)
  {
    events := Then([], Post(Up), START);
    var s1 := System(Stack(Starting, "", None, []), map[0 := Booting(false)], 1, 0, {});
    assert Run(events) == s1;
    events := Then(events, Register(0), s1);
    var s2 := System(Stack(Starting, "", Some(0), []), map[0 := Booting(true)], 1, 0, {});
    assert Run(events) == s2;
    events := Then(events, Finish(0, Some(error)), s2);
  }

  /**
   * A boot fails, a second one stores its cancel function, and the first worker's deferred reset wipes it:
   * the cancel is then accepted, and the boot it is for is not cancelled.
   */
  lemma CancelCanMissTheBoot(error: string) returns (events: seq<Event>)
    ensures Valid(events) && Run(events).workers == map[1 := Booting(true)] && Run(events).stack.status == Starting
    ensures Step(Run(events), Post(Cancel)).cancels == 1 && Step(Run(events), Post(Cancel)).cancelled == {}
  {
    events := BootThatFails(error);
    var s3 := FailedBoot(error);
    events := Then(events, Post(Up), s3);
    var s4 := System(Stack(Starting, "", Some(0), []), map[0 := Clearing, 1 := Booting(false)], 2, 0, {});
    assert Run(events) == s4;
    events := Then(events, Register(1), s4);
    var s5 := System(Stack(Starting, "", Some(1), []), map[0 := Clearing, 1 := Booting(true)], 2, 0, {});
    assert Run(events) == s5;
    events := Then(events, Clear(0), s5);
    assert Run(events) == System(Stack(Starting, "", None, []), map[1 := Booting(true)], 2, 0, {});
  }

  /** After a cancel the stack can be idle while the teardown is under way, and a new boot be accepted beside it. */
  lemma CancelledWorkersOverlap(error: string) returns (events: seq<Event>)
    ensures Valid(events)
    ensures Run(events)
          == System(Stack(Starting, "", None, []), map[0 := Clearing, 1 := Cancelling, 2 := Booting(false)], 3, 1, {0})
  {
    events := Then([], Post(Up), START);
    var s1 := System(Stack(Starting, "", None, []), map[0 := Booting(false)], 1, 0, {});
    assert Run(events) == s1;
    events := Then(events, Register(0), s1);
    var s2 := System(Stack(Starting, "", Some(0), []), map[0 := Booting(true)], 1, 0, {});
    assert Run(events) == s2;
    events := Then(events, Post(Cancel), s2);
    var s3 := System(Stack(Stopping, "", None, []), map[0 := Booting(true), 1 := Cancelling], 2, 1, {0});
    assert Run(events) == s3;
    events := Then(events, Finish(0, Some(error)), s3);
    var s4 := System(Stack(Idle, error, None, []), map[0 := Clearing, 1 := Cancelling], 2, 1, {0});
    assert Run(events) == s4;
    events := Then(events, Post(Up), s4);
  }

  /** The teardown's late reports then stand in the new boot's progress list. */
  lemma CancelledWorkersMix(error: string, late: ProgressEvent) returns (events: seq<Event>)
    ensures Valid(events) && Run(events).next == 3 && Run(events).stack.progress == [late]
    ensures EventsSinceReset(events, 2) == []
  {
    var before := CancelledWorkersOverlap(error);
    var s := System(Stack(Starting, "", None, []), map[0 := Clearing, 1 := Cancelling, 2 := Booting(false)], 3, 1, {0});
    NothingFromUnregistered(before, 2);
    RunSnoc(before, Report(1, late));
    events := before + [Report(1, late)];
    assert events[..|events| - 1] == before;
  }

  /** A boot that has not stored its cancel function has not reported anything. */
  lemma {:induction false} NothingFromUnregistered(events: seq<Event>, id: nat)
    requires Valid(events) && id in Run(events).workers && Run(events).workers[id] == Booting(false)
    ensures EventsSinceReset(events, id) == []
    decreases |events|
  {
    if events == [] {
    } else {
      var before := events[..|events| - 1];
      if id in Run(before).workers && Run(before).workers[id] == Booting(false) {
        NothingFromUnregistered(before, id);
      } else {
        NoReportsYet(before, id);
      }
    }
  }
}
