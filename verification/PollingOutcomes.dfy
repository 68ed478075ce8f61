/** What a pass leads to, from the answers of the device and the clock alone: client, requests and the next wait. */
module PollingOutcomes {
  import opened Wrappers
  import opened Homewizard
  import opened Snapshot
  import opened Polling
  import opened PollingEffects
  import opened PollingRuns

  // ---- the client ----

  /** The device refused the token, or has its API switched off. */
  predicate Refused(p: Pass) {
    p.measurement == Err(Unauthorized) || p.measurement == Err(APIDisabled)
  }

  /** The pass has a client to poll with, old or new. */
  predicate HasClient(l: LoopState, p: Pass) {
    l.connection.Some? || p.connect.Ok?
  }

  /** What becomes of the connection and of the count of connections. */
  predicate ClientAfter(l: LoopState, p: Pass, l': LoopState) {
    && (l'.connection.None? <==> !HasClient(l, p) || (!p.cancelled && Refused(p)))
    && (l.connection.Some? && l'.connection.Some? ==> l'.connection == l.connection)
    && (l.connection.None? && l'.connection.Some? ==>
          l'.connection == Some(Connection(l.connects + 1, p.connect.value.0, p.connect.value.1)))
    && l'.connects == l.connects + if l.connection.None? && p.connect.Ok? then 1 else 0
  }

  lemma PollFails(name: string, c: Connection, every: int, l: Live, p: Pass)
    ensures PollSpec(name, c, every, l, p).1 == Failure(p.measurement)
  {
  }

  lemma PassClient(s: Settings, l: LoopState, p: Pass)
    ensures ClientAfter(l, p, PassSpec(s, l, p))
  {
    if HasClient(l, p) {
      var ready := Ready(s, l, p);
      PollFails(s.name, ready.connection.value, s.systemInterval, LiveOf(ready), p);
      hide PollSpec;
    }
  }

  /**
   After every pass of a run: without a client there is still none; a pass that had one drops it if and only if it
   was not cancelled and its measurement was refused; otherwise the client is the one it was, or the new one.
   */
  lemma ClientAfterPass(s: Settings, passes: seq<Pass>)
    requires passes != []
    ensures ClientAfter(Final(s, Init(passes)), Last(passes), Final(s, passes))
  {
    PassStep(s, passes);
    PassClient(s, Final(s, Init(passes)), Last(passes));
  }

  /** A pass connects anew if and only if it can and the pass before had no client or was refused. */
  lemma ReconnectsExactlyAfterRefusal(s: Settings, passes: seq<Pass>)
    requires CanRun(s, passes) && |passes| > 1
    ensures var before, last := Init(passes), Last(passes);
            Final(s, passes).connects == Final(s, before).connects + 1 <==>
            last.connect.Ok? && (!HasClient(Final(s, Init(before)), Last(before)) || Refused(Last(before)))
  {
    var before := Init(passes);
    CancelledIsLast(s, Some(Registered(s)), passes, |passes| - 2);
    ClientAfterPass(s, before);
    ClientAfterPass(s, passes);
  }

  /** As long as no pass is refused, a loop keeps its client, whatever else fails. */
  lemma {:induction false} ClientSurvives(s: Settings, passes: seq<Pass>, n: nat)
    requires n <= |passes| && Final(s, passes[..n]).connection.Some?
    requires forall i | n <= i < |passes| :: !Refused(passes[i])
    ensures Final(s, passes).connection == Final(s, passes[..n]).connection
    decreases |passes|
  {
    if n == |passes| {
      assert passes[..n] == passes;
    } else {
      var init := Init(passes);
      assert init[..n] == passes[..n];
      ClientSurvives(s, init, n);
      ClientAfterPass(s, passes);
    }
  }

  // ---- the slow endpoints ----

  /** What a successful poll asks for: everything by its capabilities, the slow endpoints by the clock. */
  function AskedFor(caps: Capabilities, systemAt: Instant, now: Instant, every: int): seq<Endpoint> {
    [MeasurementEndpoint]
    + Maybe(caps.state, StateEndpoint)
    + Maybe(caps.system && (systemAt == 0 || now - systemAt >= every), SystemEndpoint)
    + Maybe(caps.batteries && (systemAt == 0 || now - systemAt >= every), BatteriesEndpoint)
  }

  /** A successful poll asks for exactly that; a failed one for the measurement alone. */
  lemma PollAsks(name: string, c: Connection, every: int, l: Live, p: Pass)
    requires l.record.Some?
    ensures Requests(PollSpec(name, c, every, l, p).0.events) ==
            Requests(l.events) + if p.measurement.Ok? then AskedFor(l.caps, l.record.value.systemAt, p.dueAt, every)
                                 else [MeasurementEndpoint]
  {
    if p.measurement.Ok? {
      hide PollSpec, Requests, Sections;
      PollExactly(name, c, every, l, p);
    } else {
      hide Requests;
      RequestsStep(l.events, Asked(c, MeasurementEndpoint, Failure(p.measurement)));
    }
  }

  /** The moment of the last system reading published, 0 before the first. */
  function LastSystemStamp(events: seq<Event>): Instant {
    var stamps := SystemStamps(events);
    if stamps == [] then 0 else stamps[|stamps| - 1]
  }

  /** The capabilities a pass polls with. */
  function CapsFor(l: LoopState, p: Pass): Capabilities
    requires HasClient(l, p)
  {
    if l.connection.Some? then l.caps else CapabilitiesFor(p.connect.value.1, p.connect.value.0)
  }

  lemma ConnectAsksNothing(s: Settings, l: LoopState, p: Pass)
    requires l.record.Some? && l.connection.None? && p.connect.Ok?
    ensures var ready := Ready(s, l, p);
            && Requests(ready.events) == Requests(l.events)
            && ready.record.Some? && ready.record.value.systemAt == l.record.value.systemAt
            && ready.caps == CapsFor(l, p)
  {
    var (version, info) := p.connect.value;
    ConnectEffect(s, l, version, info);
    var c := Connection(l.connects + 1, version, info);
    RequestsStep(l.events, Published(IdentityOf(s.host, c, CapabilitiesFor(info, version))));
  }

  lemma PassAsks(s: Settings, l: LoopState, p: Pass)
    requires l.record.Some? && l.record.value.systemAt == LastSystemStamp(l.events)
    ensures Requests(PassSpec(s, l, p).events) ==
            Requests(l.events) + if !HasClient(l, p) then []
                                 else if p.measurement.Err? then [MeasurementEndpoint]
                                 else AskedFor(CapsFor(l, p), LastSystemStamp(l.events), p.dueAt, s.systemInterval)
  {
    hide Requests, AskedFor, PollSpec, LastSystemStamp;
    if HasClient(l, p) {
      var ready := Ready(s, l, p);
      if l.connection.None? { ConnectAsksNothing(s, l, p); }
      PollAsks(s.name, ready.connection.value, s.systemInterval, LiveOf(ready), p);
    }
  }

  /**
   On every run a pass asks for nothing without a client and for the measurement alone when that fails; and a pass
   that succeeds asks for the system and the batteries, where its client has them, if and only if none has been
   published yet or the last published system reading is system_interval old by then.
   */
  lemma SlowEndpointsAreReadWhenDue(s: Settings, passes: seq<Pass>)
    requires CanRun(s, passes) && passes != []
    ensures var l, p := Final(s, Init(passes)), Last(passes);
            Requests(Final(s, passes).events) ==
            Requests(l.events) + if !HasClient(l, p) then []
                                 else if p.measurement.Err? then [MeasurementEndpoint]
                                 else AskedFor(CapsFor(l, p), LastSystemStamp(l.events), p.dueAt, s.systemInterval)
  {
    var l, p := Final(s, Init(passes)), Last(passes);
    LastAllowed(s, passes);
    SystemReadingsArePaced(s, Init(passes));
    PassStep(s, passes);
    PassAsks(s, l, p);
  }

  // ---- the next wait ----

  /** After a success the next pass is interval later, plus at most a fiftieth of it. */
  lemma WaitAfterSuccess(s: Settings, passes: seq<Pass>)
    requires CanRun(s, passes) && passes != []
    requires 0 < s.interval && s.interval + s.interval / 50 <= MaxInt64
    requires HasClient(Final(s, Init(passes)), Last(passes)) && Last(passes).measurement.Ok? && !Last(passes).cancelled
    ensures s.interval <= Final(s, passes).wakeAt - Last(passes).end <= s.interval + s.interval / 50
    ensures Final(s, passes).backoff == s.backoffMin
  {
    var l, p := Final(s, Init(passes)), Last(passes);
    LastAllowed(s, passes);
    PassStep(s, passes);
    var ready := Ready(s, l, p);
    PollFails(s.name, ready.connection.value, s.systemInterval, LiveOf(ready), p);
    hide PollSpec;
  }
}
