/** One polling loop per device: connect, poll, wait, with backoff; publishing into the snapshot store. */
module Polling {
  import opened Wrappers
  import opened Homewizard
  import opened Snapshot
  import Config

  const DefaultBackoffMin := 5 * Config.Second
  const DefaultBackoffMax := 120 * Config.Second

  /** Go's int64 result of an operation that may overflow. */
  function Wrap64(n: int): (r: int)
    ensures MinInt64 <= r <= MaxInt64
    ensures MinInt64 <= n <= MaxInt64 ==> r == n
  {
    (n - MinInt64) % 0x1_0000_0000_0000_0000 + MinInt64
  }

  // ---- the environment ----

  /** The failures the loop tells apart. */
  datatype ErrorKind = NotFound | Unauthorized | APIDisabled | OtherFailure

  type Answer<T> = Result<T, ErrorKind>

  function Failure<T>(a: Answer<T>): Option<ErrorKind> {
    match a case Ok(_) => None case Err(kind) => Some(kind)
  }

  /** What the device and the clock do during one pass of the loop; unused answers are ignored. */
  datatype Pass = Pass(
    start: Instant,
    connect: Answer<(string, Info)>,
    measurement: Answer<Measurement>, measuredAt: Instant,
    state: Answer<State>, stateAt: Instant,
    dueAt: Instant,
    system: Answer<System>, systemAt: Instant,
    batteries: Answer<Batteries>, batteriesAt: Instant,
    end: Instant,
    cancelled: bool,
    jitter: int)
  {
    /** The clock does not run backwards, and is past Go's zero time. */
    predicate Ordered() {
      0 < start <= measuredAt <= stateAt <= dueAt <= systemAt <= batteriesAt <= end
    }
  }

  datatype Endpoint = MeasurementEndpoint | StateEndpoint | SystemEndpoint | BatteriesEndpoint
  {
    /** The name noteSecondary passes to Disable. */
    function Name(): string {
      match this
      case MeasurementEndpoint => "measurement"
      case StateEndpoint => "state"
      case SystemEndpoint => "system"
      case BatteriesEndpoint => "batteries"
    }
  }

  /** The part of a client that never changes; `id` counts successful connections. */
  datatype Connection = Connection(id: nat, version: string, info: Info)

  /** The journal of a loop: requests sent, with their failure if any, and updates published. */
  datatype Event =
    | Asked(connection: Connection, endpoint: Endpoint, failure: Option<ErrorKind>)
    | Published(mutation: Mutation)

  // ---- what one pass does, as a function ----

  /** The device's record, the client's capabilities and the journal, while a pass runs. */
  datatype Live = Live(record: Option<Device>, caps: Capabilities, events: seq<Event>)

  function Publish(name: string, l: Live, m: Mutation): Live {
    l.(record := Some(Apply(l.record.GetOr(NewDevice(name)), m)), events := l.events + [Published(m)])
  }

  function Ask(c: Connection, l: Live, e: Endpoint, failure: Option<ErrorKind>): Live {
    l.(events := l.events + [Asked(c, e, failure)])
  }

  function IdentityOf(host: string, c: Connection, caps: Capabilities): Mutation {
    [SetHost(host), SetInfo(c.info), SetCaps(caps), SetAPIVersion(c.version)]
  }

  /** A failed secondary request: only not-found has a lasting effect. */
  function NoteSecondarySpec(name: string, l: Live, e: Endpoint, kind: ErrorKind): Live {
    if kind.NotFound? then
      var caps := Without(l.caps, e.Name());
      Publish(name, l.(caps := caps), [SetCaps(caps)])
    else l
  }

  /** One secondary request and what follows from its answer. */
  function Secondary(name: string, c: Connection, l: Live, e: Endpoint, failure: Option<ErrorKind>, m: Mutation): Live {
    var asked := Ask(c, l, e, failure);
    match failure
    case None => Publish(name, asked, m)
    case Some(kind) => NoteSecondarySpec(name, asked, e, kind)
  }

  function StateWrites(p: Pass): Mutation {
    match p.state case Ok(v) => [SetState(v), SetStateAt(p.stateAt)] case Err(_) => []
  }

  function SystemWrites(p: Pass): Mutation {
    match p.system case Ok(v) => [SetSystem(v), SetSystemAt(p.systemAt)] case Err(_) => []
  }

  function BatteriesWrites(p: Pass): Mutation {
    match p.batteries case Ok(v) => [SetBatteries(v), SetBatteriesAt(p.batteriesAt)] case Err(_) => []
  }

  predicate DueSpec(record: Option<Device>, now: Instant, every: int) {
    record.None? || record.value.systemAt == 0 || now - record.value.systemAt >= every
  }

  function PollSlowSpec(name: string, c: Connection, l: Live, p: Pass): Live {
    var caps := l.caps;
    var l1 :=
      if caps.system then Secondary(name, c, l, SystemEndpoint, Failure(p.system), SystemWrites(p)) else l;
    if caps.batteries then Secondary(name, c, l1, BatteriesEndpoint, Failure(p.batteries), BatteriesWrites(p)) else l1
  }

  /** The stage of a poll after the measurement has been published. */
  function PollRestSpec(name: string, c: Connection, every: int, caps: Capabilities, l: Live, p: Pass): Live {
    var l1 :=
      if caps.state then Secondary(name, c, l, StateEndpoint, Failure(p.state), StateWrites(p)) else l;
    if DueSpec(l1.record, p.dueAt, every) then PollSlowSpec(name, c, l1, p) else l1
  }

  function PollSpec(name: string, c: Connection, every: int, l: Live, p: Pass): (Live, Option<ErrorKind>) {
    var asked := Ask(c, l, MeasurementEndpoint, Failure(p.measurement));
    match p.measurement
    case Err(kind) => (asked, Some(kind))
    case Ok(m) =>
      var measured := Publish(name, asked, [SetMeasurement(m), SetMeasuredAt(p.measuredAt)]);
      (PollRestSpec(name, c, every, l.caps, measured, p), None)
  }

  // ---- the loop ----

  datatype Settings = Settings(
    name: string, host: string, interval: int, systemInterval: int, backoffMin: int, backoffMax: int)

  /** The loop between two passes. `caps` are those of the last connected client. */
  datatype LoopState = LoopState(
    connection: Option<Connection>, caps: Capabilities, connects: nat, backoff: int,
    record: Option<Device>, events: seq<Event>, now: Instant, wakeAt: int, running: bool)

  function Initial(s: Settings, record: Option<Device>): LoopState {
    LoopState(None, NoCapabilities, 0, s.backoffMin, record, [], 0, 0, true)
  }

  function Connected(s: Settings, l: LoopState, version: string, info: Info): LoopState {
    var c := Connection(l.connects + 1, version, info);
    var caps := CapabilitiesFor(info, version);
    var live := Publish(s.name, Live(l.record, caps, l.events), IdentityOf(s.host, c, caps));
    l.(connection := Some(c), connects := c.id, caps := caps, record := live.record, events := live.events)
  }

  /** The loop once it has a client, old or new. */
  function Ready(s: Settings, l: LoopState, p: Pass): LoopState
    requires l.connection.Some? || p.connect.Ok?
  {
    if l.connection.Some? then l else Connected(s, l, p.connect.value.0, p.connect.value.1)
  }

  function PollFrom(s: Settings, l: LoopState, p: Pass): (LoopState, Option<ErrorKind>)
    requires l.connection.Some?
  {
    var (live, failure) := PollSpec(s.name, l.connection.value, s.systemInterval, Live(l.record, l.caps, l.events), p);
    (l.(record := live.record, caps := live.caps, events := live.events), failure)
  }

  /** The pass up to the end of the poll: the state then, and the error if there was one. */
  function Attempt(s: Settings, l: LoopState, p: Pass): (LoopState, Option<ErrorKind>) {
    if l.connection.None? && p.connect.Err? then (l, Some(p.connect.error))
    else PollFrom(s, Ready(s, l, p), p)
  }

  function NextBackoff(backoff: int, max: int): int {
    var doubled := Wrap64(2 * backoff);
    if doubled > max then max else doubled
  }

  /** The delay chosen after a pass, before jitter. */
  function Delay(s: Settings, l: LoopState, p: Pass): int {
    if Attempt(s, l, p).1.Some? then l.backoff else s.interval
  }

  predicate JitterInRange(delay: int, jitter: int) {
    0 <= jitter <= if delay <= 0 then 0 else delay / 50
  }

  /** What follows the poll: the wait is chosen, the backoff moves on, and some failures drop the client. */
  function Closed(s: Settings, l: LoopState, failure: Option<ErrorKind>, p: Pass): LoopState {
    var ended := l.(now := p.end);
    if p.cancelled then ended.(running := false)
    else
      match failure
      case None => ended.(wakeAt := p.end + Wrap64(s.interval + p.jitter), backoff := s.backoffMin)
      case Some(kind) =>
        ended.(wakeAt := p.end + Wrap64(l.backoff + p.jitter),
               backoff := NextBackoff(l.backoff, s.backoffMax),
               connection := if kind in {Unauthorized, APIDisabled} then None else l.connection)
  }

  function PassSpec(s: Settings, l: LoopState, p: Pass): LoopState {
    var (l1, failure) := Attempt(s, l, p);
    Closed(s, l1, failure, p)
  }

  /** A pass may start once the timer has fired, and its jitter is in the range `jitter` draws from. */
  predicate Allowed(s: Settings, l: LoopState, p: Pass) {
    && l.running
    && p.Ordered()
    && l.now <= p.start && l.wakeAt <= p.start
    && JitterInRange(Delay(s, l, p), p.jitter)
  }

  /** The loop after a finite run. */
  function AfterPasses(s: Settings, record: Option<Device>, passes: seq<Pass>): LoopState {
    if passes == [] then Initial(s, record)
    else PassSpec(s, AfterPasses(s, record, passes[..|passes| - 1]), passes[|passes| - 1])
  }

  predicate Admissible(s: Settings, record: Option<Device>, passes: seq<Pass>) {
    forall i | 0 <= i < |passes| :: Allowed(s, AfterPasses(s, record, passes[..i]), passes[i])
  }

  /** A cancelled pass is the last one. */
  lemma CancelledIsLast(s: Settings, record: Option<Device>, passes: seq<Pass>, i: nat)
    requires Admissible(s, record, passes) && i < |passes|
    ensures passes[i].cancelled ==> i + 1 == |passes|
  {
    if i + 1 < |passes| {
      assert Allowed(s, AfterPasses(s, record, passes[..i + 1]), passes[i + 1]);
      assert passes[..i + 1][..i] == passes[..i];
    }
  }

  lemma RunStep(s: Settings, record: Option<Device>, passes: seq<Pass>, i: nat)
    requires i < |passes|
    ensures AfterPasses(s, record, passes[..i + 1]) == PassSpec(s, AfterPasses(s, record, passes[..i]), passes[i])
  {
    assert passes[..i + 1][..i] == passes[..i];
  }

  lemma RunEnds(s: Settings, record: Option<Device>, passes: seq<Pass>)
    ensures AfterPasses(s, record, passes[..0]) == Initial(s, record)
    ensures passes[..|passes|] == passes
  {
  }

  function LiveOf(l: LoopState): Live {
    Live(l.record, l.caps, l.events)
  }

  /** The end of a pass touches neither the record nor what is published. */
  lemma ClosedKeeps(s: Settings, l: LoopState, failure: Option<ErrorKind>, p: Pass)
    ensures var closed := Closed(s, l, failure, p);
            && LiveOf(closed) == LiveOf(l) && closed.connects == l.connects
            && (p.cancelled ==>
                  closed.wakeAt == l.wakeAt && closed.backoff == l.backoff && closed.connection == l.connection)
  {
  }

  lemma AttemptKeepsTimer(s: Settings, l: LoopState, p: Pass)
    ensures var tried := Attempt(s, l, p).0;
            tried.backoff == l.backoff && tried.wakeAt == l.wakeAt && tried.running == l.running
  {
  }

  // ---- the program's own form ----

  function Put(v: View, name: string, record: Option<Device>): View {
    if record.Some? then v[name := record.value] else v
  }

  /** The record, capabilities and journal a pass works on, as they stand in the program. */
  function Observe(v: View, name: string, caps: Capabilities, events: seq<Event>): Live {
    Live(Find(v, name), caps, events)
  }

  /** The program has done to the store, the client and the journal what the specification says. */
  predicate Reflects(before: View, after: View, name: string, caps: Capabilities, events: seq<Event>, l: Live) {
    && after == Put(before, name, l.record)
    && (l.record.None? ==> name !in before)
    && caps == l.caps && events == l.events
  }

  lemma ReflectsObserve(before: View, after: View, name: string, caps: Capabilities, events: seq<Event>, l: Live)
    requires Reflects(before, after, name, caps, events, l)
    ensures Observe(after, name, caps, events) == l
  {
  }

  lemma ReflectsChain(before: View, middle: View, after: View, name: string, caps: Capabilities, events: seq<Event>,
                      l: Live, l': Live)
    requires middle == Put(before, name, l.record) && (l.record.None? ==> name !in before)
    requires Reflects(middle, after, name, caps, events, l')
    ensures Reflects(before, after, name, caps, events, l')
  {
  }

  /** The store is what the loop state says for this device, and as before for every other one. */
  predicate Matches(before: View, now: View, s: Settings, l: LoopState) {
    Reflects(before, now, s.name, l.caps, l.events, LiveOf(l))
  }

  lemma StartMatches(before: View, s: Settings)
    ensures Matches(before, before, s, Initial(s, Find(before, s.name)))
  {
  }

  lemma MatchesSame(before: View, now: View, s: Settings, l: LoopState, l': LoopState)
    requires Matches(before, now, s, l) && LiveOf(l') == LiveOf(l)
    ensures Matches(before, now, s, l')
  {
  }

  lemma MatchesMeans(before: View, now: View, s: Settings, l: LoopState)
    requires Matches(before, now, s, l)
    ensures now == Put(before, s.name, l.record)
  {
  }

  /** Whether a client object is the connection the loop state speaks of. */
  ghost predicate Serves(client: Client, s: Settings, l: LoopState)
    reads client
  {
    && l.connection == Some(Connection(l.connects, client.version, client.info))
    && client.name == s.name && client.host == s.host && client.caps == l.caps
  }

  datatype Options = Options(poll: Config.Poll, backoffMin: int, backoffMax: int)

  class Poller {
    const store: Store
    const poll: Config.Poll
    const backoffMin: int
    const backoffMax: int

    constructor New(opts: Options, store: Store)
      ensures this.store == store && poll == opts.poll
      ensures 0 < backoffMin <= backoffMax
      ensures opts.backoffMin > 0 ==> backoffMin == opts.backoffMin
      ensures opts.backoffMin <= 0 ==> backoffMin == DefaultBackoffMin
      ensures opts.backoffMax >= backoffMin ==> backoffMax == opts.backoffMax
      ensures opts.backoffMax < backoffMin ==>
                backoffMax == if DefaultBackoffMax >= backoffMin then DefaultBackoffMax else backoffMin
    {
      var low := opts.backoffMin;
      if low <= 0 {
        low := DefaultBackoffMin;
      }
      var high := opts.backoffMax;
      if high < low {
        high := if DefaultBackoffMax >= low then DefaultBackoffMax else low;
      }
      this.store := store;
      poll := opts.poll;
      backoffMin, backoffMax := low, high;
    }

    function Interval(device: Config.Device): int {
      if device.interval > 0 then device.interval else poll.interval
    }

    function SettingsFor(device: Config.Device): Settings {
      Settings(device.name, device.host, Interval(device), poll.systemInterval, backoffMin, backoffMax)
    }

    /** What Run does for a device before it starts that device's loop. */
    method Register(device: Config.Device)
      modifies store
      ensures store.Contents() == Snapshot.After(old(store.Contents()), Change(device.name, [SetHost(device.host)]))
    {
      store.Update(device.name, [SetHost(device.host)]);
    }

    method PublishIdentity(client: Client, c: Connection, ghost past: seq<Event>) returns (ghost events: seq<Event>)
      requires c.version == client.version && c.info == client.info
      modifies store
      ensures var l := Publish(client.name, Observe(old(store.Contents()), client.name, client.caps, past),
                               IdentityOf(client.host, c, client.caps));
              store.Contents() == Put(old(store.Contents()), client.name, l.record) && events == l.events
    {
      var m := [SetHost(client.host), SetInfo(client.info), SetCaps(client.caps), SetAPIVersion(client.version)];
      store.Update(client.name, m);
      events := past + [Published(m)];
    }

    method Due(name: string, now: Instant, every: int) returns (due: bool)
      ensures due == DueSpec(Find(store.Contents(), name), now, every)
      ensures var known := store.Contents();
              due <==> (name in known && known[name].systemAt != 0 ==> now - known[name].systemAt >= every)
    {
      var device := store.Lookup(name);
      if device.None? || device.value.systemAt == 0 {
        return true;
      }
      due := now - device.value.systemAt >= every;
    }

    method NoteSecondary(e: Endpoint, kind: ErrorKind, client: Client, ghost past: seq<Event>)
      returns (ghost events: seq<Event>)
      modifies store, client`caps
      ensures Reflects(old(store.Contents()), store.Contents(), client.name, client.caps, events,
                       NoteSecondarySpec(client.name,
                                         Observe(old(store.Contents()), client.name, old(client.caps), past), e, kind))
    {
      events := past;
      if kind.NotFound? {
        client.Disable(e.Name());
        store.Update(client.name, [SetCaps(client.caps)]);
        events := events + [Published([SetCaps(client.caps)])];
      }
    }

    /** Sends one secondary request, and publishes its answer or notes its failure. */
    method ReadSecondary(client: Client, c: Connection, e: Endpoint, failure: Option<ErrorKind>, m: Mutation,
                         ghost past: seq<Event>)
      returns (ghost events: seq<Event>)
      modifies store, client`caps
      ensures Reflects(old(store.Contents()), store.Contents(), client.name, client.caps, events,
                       Secondary(client.name, c, Observe(old(store.Contents()), client.name, old(client.caps), past),
                                 e, failure, m))
    {
      events := past + [Asked(c, e, failure)];
      if failure.Some? {
        events := NoteSecondary(e, failure.value, client, events);
      } else {
        store.Update(client.name, m);
        events := events + [Published(m)];
      }
    }

    method PollSlow(client: Client, c: Connection, p: Pass, ghost past: seq<Event>)
      returns (ghost events: seq<Event>)
      modifies store, client`caps
      ensures Reflects(old(store.Contents()), store.Contents(), client.name, client.caps, events,
                       PollSlowSpec(client.name, c,
                                    Observe(old(store.Contents()), client.name, old(client.caps), past), p))
    {
      ghost var before := store.Contents();
      ghost var l := Observe(before, client.name, client.caps, past);
      var caps := client.caps;
      events := past;
      if caps.system {
        events := ReadSecondary(client, c, SystemEndpoint, Failure(p.system), SystemWrites(p), events);
        l := Secondary(client.name, c, l, SystemEndpoint, Failure(p.system), SystemWrites(p));
      }
      ReflectsObserve(before, store.Contents(), client.name, client.caps, events, l);
      ghost var middle := store.Contents();
      if caps.batteries {
        events := ReadSecondary(client, c, BatteriesEndpoint, Failure(p.batteries), BatteriesWrites(p), events);
        ReflectsChain(before, middle, store.Contents(), client.name, client.caps, events, l,
                      Secondary(client.name, c, l, BatteriesEndpoint, Failure(p.batteries), BatteriesWrites(p)));
      }
    }

    method Poll(client: Client, c: Connection, p: Pass, ghost past: seq<Event>)
      returns (failure: Option<ErrorKind>, ghost events: seq<Event>)
      modifies store, client`caps
      ensures var (l, f) := PollSpec(client.name, c, poll.systemInterval,
                                     Observe(old(store.Contents()), client.name, old(client.caps), past), p);
              failure == f &&
              Reflects(old(store.Contents()), store.Contents(), client.name, client.caps, events, l)
    {
      ghost var before := store.Contents();
      ghost var l := Observe(before, client.name, client.caps, past);
      var caps := client.caps;
      events := past + [Asked(c, MeasurementEndpoint, Failure(p.measurement))];
      if p.measurement.Err? {
        return Some(p.measurement.error), events;
      }
      var m := [SetMeasurement(p.measurement.value), SetMeasuredAt(p.measuredAt)];
      store.Update(client.name, m);
      events := events + [Published(m)];
      l := Publish(client.name, Ask(c, l, MeasurementEndpoint, None), m);
      ReflectsObserve(before, store.Contents(), client.name, client.caps, events, l);
      ghost var middle := store.Contents();
      events := PollRest(client, c, p, caps, events);
      ReflectsChain(before, middle, store.Contents(), client.name, client.caps, events, l,
                    PollRestSpec(client.name, c, poll.systemInterval, caps, l, p));
      failure := None;
    }

    /** What a poll does after the measurement: the relay state, and the slow endpoints when they are due. */
    method PollRest(client: Client, c: Connection, p: Pass, caps: Capabilities, ghost past: seq<Event>)
      returns (ghost events: seq<Event>)
      modifies store, client`caps
      ensures Reflects(old(store.Contents()), store.Contents(), client.name, client.caps, events,
                       PollRestSpec(client.name, c, poll.systemInterval, caps,
                                    Observe(old(store.Contents()), client.name, old(client.caps), past), p))
    {
      hide Secondary, PollSlowSpec, StateWrites, Failure, DueSpec;
      ghost var before := store.Contents();
      ghost var l := Observe(before, client.name, client.caps, past);
      events := past;
      if caps.state {
        events := ReadSecondary(client, c, StateEndpoint, Failure(p.state), StateWrites(p), events);
        l := Secondary(client.name, c, l, StateEndpoint, Failure(p.state), StateWrites(p));
      }
      ReflectsObserve(before, store.Contents(), client.name, client.caps, events, l);
      ghost var middle := store.Contents();
      var due := Due(client.name, p.dueAt, poll.systemInterval);
      if due {
        events := PollSlow(client, c, p, events);
        ReflectsChain(before, middle, store.Contents(), client.name, client.caps, events, l,
                      PollSlowSpec(client.name, c, l, p));
      }
    }

    /** Connects and publishes the identity. */
    method Connect(device: Config.Device, connects: nat, p: Pass, ghost before: View, ghost l: LoopState)
      returns (client: Client, ghost l1: LoopState)
      requires Matches(before, store.Contents(), SettingsFor(device), l)
      requires p.connect.Ok? && l.connection.None? && connects == l.connects
      modifies store
      ensures l1 == Ready(SettingsFor(device), l, p)
      ensures Matches(before, store.Contents(), SettingsFor(device), l1)
      ensures fresh(client) && Serves(client, SettingsFor(device), l1)
    {
      ghost var s := SettingsFor(device);
      ghost var middle := store.Contents();
      client := new Client(device.name, device.host, p.connect.value.0, p.connect.value.1);
      l1 := Ready(s, l, p);
      ghost var events := PublishIdentity(client, Connection(connects + 1, client.version, client.info), l.events);
      ReflectsObserve(before, middle, s.name, l.caps, l.events, LiveOf(l));
      ReflectsChain(before, middle, store.Contents(), s.name, l1.caps, events, LiveOf(l), LiveOf(l1));
    }

    /** Polls with the client of this loop. */
    method PollWith(device: Config.Device, client: Client, connects: nat, p: Pass, ghost before: View,
                    ghost l: LoopState)
      returns (failure: Option<ErrorKind>, ghost l1: LoopState)
      requires Matches(before, store.Contents(), SettingsFor(device), l)
      requires Serves(client, SettingsFor(device), l) && connects == l.connects
      modifies store, client
      ensures (l1, failure) == PollFrom(SettingsFor(device), l, p)
      ensures Matches(before, store.Contents(), SettingsFor(device), l1)
      ensures Serves(client, SettingsFor(device), l1)
    {
      ghost var s := SettingsFor(device);
      ghost var middle := store.Contents();
      ReflectsObserve(before, middle, s.name, client.caps, l.events, LiveOf(l));
      ghost var events;
      failure, events := Poll(client, Connection(connects, client.version, client.info), p, l.events);
      l1 := PollFrom(s, l, p).0;
      ReflectsChain(before, middle, store.Contents(), s.name, client.caps, events, LiveOf(l), LiveOf(l1));
    }

    /** One pass up to the end of the poll: connect if there is no client, then poll. */
    method Try(device: Config.Device, client: Client?, connects: nat, p: Pass, ghost before: View, ghost l: LoopState)
      returns (served: Client?, connected: nat, failure: Option<ErrorKind>, ghost l1: LoopState)
      requires Matches(before, store.Contents(), SettingsFor(device), l)
      requires client == null <==> l.connection.None?
      requires client != null ==> Serves(client, SettingsFor(device), l)
      requires connects == l.connects
      modifies store, if client == null then {} else {client}
      ensures (l1, failure) == Attempt(SettingsFor(device), l, p)
      ensures Matches(before, store.Contents(), SettingsFor(device), l1)
      ensures served == null <==> l1.connection.None?
      ensures served != null ==> Serves(served, SettingsFor(device), l1) && (served == client || fresh(served))
      ensures connected == l1.connects
    {
      served, connected, l1 := client, connects, l;
      if served == null {
        if p.connect.Err? {
          failure := Some(p.connect.error);
          return;
        }
        served, l1 := Connect(device, connects, p, before, l);
        connected := connects + 1;
      }
      failure, l1 := PollWith(device, served, connected, p, before, l1);
    }

    /** The end of a pass: whether the client is kept, the next backoff and the timer. */
    method Reschedule(device: Config.Device, client: Client?, backoff: int, failure: Option<ErrorKind>, p: Pass,
                      ghost l: LoopState)
      returns (kept: Client?, next: int, timer: Instant)
      requires !p.cancelled && backoff == l.backoff && (client == null ==> l.connection.None?)
      ensures var closed := Closed(SettingsFor(device), l, failure, p);
              && next == closed.backoff && timer == closed.wakeAt
              && closed.connection == (if kept == null then None else l.connection)
      ensures kept == if failure == Some(Unauthorized) || failure == Some(APIDisabled) then null else client
    {
      kept := client;
      var delay := Interval(device);
      if failure.Some? {
        if failure.value in {Unauthorized, APIDisabled} {
          kept := null;
        }
        delay := backoff;
        next := NextBackoff(backoff, backoffMax);
      } else {
        next := backoffMin;
      }
      timer := p.end + Wrap64(delay + p.jitter);
    }

    /** One pass: connect and poll, then choose the wait; a cancelled pass leaves the timer alone. */
    method RunPass(device: Config.Device, client: Client?, connects: nat, backoff: int, timer: Instant, p: Pass,
                   ghost before: View, ghost l: LoopState)
      returns (served: Client?, connected: nat, next: int, wake: Instant, ghost l': LoopState)
      requires Matches(before, store.Contents(), SettingsFor(device), l)
      requires client == null <==> l.connection.None?
      requires client != null ==> Serves(client, SettingsFor(device), l)
      requires connects == l.connects && backoff == l.backoff && timer == l.wakeAt
      modifies store, if client == null then {} else {client}
      ensures l' == PassSpec(SettingsFor(device), l, p)
      ensures Matches(before, store.Contents(), SettingsFor(device), l')
      ensures served == null <==> l'.connection.None?
      ensures served != null ==> Serves(served, SettingsFor(device), l') && (served == client || fresh(served))
      ensures connected == l'.connects && next == l'.backoff && wake == l'.wakeAt
    {
      ghost var s := SettingsFor(device);
      hide Attempt, Closed, Reflects;
      AttemptKeepsTimer(s, l, p);
      var failure: Option<ErrorKind>;
      ghost var tried;
      served, connected, failure, tried := Try(device, client, connects, p, before, l);
      ClosedKeeps(s, tried, failure, p);
      l' := Closed(s, tried, failure, p);
      MatchesSame(before, store.Contents(), s, tried, l');
      next, wake := backoff, timer;
      ghost var shown := store.Contents();
      if !p.cancelled {
        served, next, wake := Reschedule(device, served, backoff, failure, p, tried);
      }
      assert store.Contents() == shown;
    }

    /**
     The loop of one device over the passes its environment allows, from the record Register left.
     The store ends up with this device's record as `AfterPasses` says and every other record untouched;
     the timer is set from the interval or the backoff, with the jitter drawn in that pass.
     */
    method Loop(device: Config.Device, passes: seq<Pass>) returns (timer: Instant, ghost end: LoopState)
      requires Admissible(SettingsFor(device), Find(store.Contents(), device.name), passes)
      modifies store
      ensures end == AfterPasses(SettingsFor(device), Find(old(store.Contents()), device.name), passes)
      ensures store.Contents() == Put(old(store.Contents()), device.name, end.record)
      ensures timer == end.wakeAt
    {
      ghost var s := SettingsFor(device);
      ghost var before := store.Contents();
      ghost var r0 := Find(before, device.name);
      var client: Client? := null;
      var connects, backoff := 0, backoffMin;
      timer := 0;
      end := Initial(s, r0);
      StartMatches(before, s);
      hide AfterPasses, PassSpec, Reflects, Admissible;
      RunEnds(s, r0, passes);
      for i := 0 to |passes|
        invariant end == AfterPasses(s, r0, passes[..i])
        invariant Matches(before, store.Contents(), s, end)
        invariant client == null <==> end.connection.None?
        invariant client != null ==> fresh(client) && Serves(client, s, end)
        invariant connects == end.connects && backoff == end.backoff && timer == end.wakeAt
      {
        RunStep(s, r0, passes, i);
        client, connects, backoff, timer, end :=
          RunPass(device, client, connects, backoff, timer, passes[i], before, end);
        if passes[i].cancelled {
          CancelledIsLast(s, r0, passes, i);
          break;
        }
      }
      MatchesMeans(before, store.Contents(), s, end);
    }
  }
}
