/** What every run of a polling loop keeps: staleness, pacing of the slow endpoints, ownership. */
module PollingRuns {
  import opened Wrappers
  import opened Homewizard
  import opened Snapshot
  import opened Polling
  import opened PollingEffects

  /** The record Register leaves for a device the store did not know. */
  function Registered(s: Settings): Device {
    NewDevice(s.name).(host := s.host)
  }

  lemma RegisteredByRegister(s: Settings)
    ensures Replay(s.name, [[SetHost(s.host)]]) == Some(Registered(s))
  {
    ApplyTwo(NewDevice(s.name), SetHost(s.host), SetHost(s.host));
    assert [[SetHost(s.host)]][..0] == [];
  }

  /** The state of a device's loop after a run that started with Register. */
  function Final(s: Settings, passes: seq<Pass>): LoopState {
    AfterPasses(s, Some(Registered(s)), passes)
  }

  ghost predicate CanRun(s: Settings, passes: seq<Pass>) {
    Admissible(s, Some(Registered(s)), passes)
  }

  function Init(passes: seq<Pass>): seq<Pass>
    requires passes != []
  {
    passes[..|passes| - 1]
  }

  function Last(passes: seq<Pass>): Pass
    requires passes != []
  {
    passes[|passes| - 1]
  }

  lemma LastAllowed(s: Settings, passes: seq<Pass>)
    requires CanRun(s, passes) && passes != []
    ensures CanRun(s, Init(passes)) && Allowed(s, Final(s, Init(passes)), Last(passes))
  {
    assert Allowed(s, AfterPasses(s, Some(Registered(s)), passes[..|passes| - 1]), passes[|passes| - 1]);
    forall i | 0 <= i < |passes| - 1
      ensures Allowed(s, AfterPasses(s, Some(Registered(s)), Init(passes)[..i]), Init(passes)[i])
    {
      assert Init(passes)[..i] == passes[..i];
    }
  }

  predicate Succeeds(s: Settings, l: LoopState, p: Pass) {
    Attempt(s, l, p).1.None?
  }

  // ---- staleness ----

  /** When the last successful poll ended; 0 if there was none. */
  function LastGood(s: Settings, passes: seq<Pass>): Instant {
    if passes == [] then 0
    else if Succeeds(s, Final(s, Init(passes)), Last(passes)) then Last(passes).end
    else LastGood(s, Init(passes))
  }

  /** When the last successful poll started; 0 if there was none. */
  function LastGoodStart(s: Settings, passes: seq<Pass>): Instant {
    if passes == [] then 0
    else if Succeeds(s, Final(s, Init(passes)), Last(passes)) then Last(passes).start
    else LastGoodStart(s, Init(passes))
  }

  /** The stamps of a record against the bounds of the last successful poll. */
  predicate Stamped(d: Device, from: Instant, to: Instant) {
    && 0 <= from <= d.measuredAt <= d.LastUpdate() <= to
    && 0 <= d.systemAt && 0 <= d.stateAt && 0 <= d.batteriesAt
    && (d.measuredAt == 0 <==> to == 0)
    && (to == 0 ==> from == 0)
    && (d.measuredAt == 0 ==> d.systemAt == d.stateAt == d.batteriesAt == 0)
  }

  predicate StampsMovedOn(d: Device, e: Device) {
    d.measuredAt <= e.measuredAt && d.systemAt <= e.systemAt && d.stateAt <= e.stateAt && d.batteriesAt <= e.batteriesAt
  }

  /** One pass keeps the stamps within bounds and never turns one back. */
  lemma PassStamps(s: Settings, l: LoopState, p: Pass, from: Instant, to: Instant)
    requires l.record.Some? && Stamped(l.record.value, from, to) && to <= l.now && Allowed(s, l, p)
    ensures var l' := PassSpec(s, l, p);
            && l'.record.Some? && l'.now == p.end && l.now <= p.end
            && StampsMovedOn(l.record.value, l'.record.value)
            && (if Succeeds(s, l, p) then Stamped(l'.record.value, p.start, p.end)
                else Stamped(l'.record.value, from, to))
  {
    AttemptEffect(s, l, p);
  }

  lemma {:induction false} RunStamps(s: Settings, passes: seq<Pass>)
    requires CanRun(s, passes)
    ensures Final(s, passes).record.Some?
    ensures Stamped(Final(s, passes).record.value, LastGoodStart(s, passes), LastGood(s, passes))
    ensures LastGood(s, passes) <= Final(s, passes).now
  {
    if passes != [] {
      LastAllowed(s, passes);
      RunStamps(s, Init(passes));
      PassStamps(s, Final(s, Init(passes)), Last(passes), LastGoodStart(s, Init(passes)), LastGood(s, Init(passes)));
    }
  }

  /** Extending a run never turns a stamp back. */
  lemma {:induction false} StampsNeverGoBack(s: Settings, passes: seq<Pass>, n: nat)
    requires CanRun(s, passes) && n <= |passes|
    ensures Final(s, passes[..n]).record.Some? && Final(s, passes).record.Some?
    ensures StampsMovedOn(Final(s, passes[..n]).record.value, Final(s, passes).record.value)
    decreases |passes|
  {
    if n == |passes| {
      assert passes[..n] == passes;
      RunStamps(s, passes);
    } else {
      LastAllowed(s, passes);
      assert Init(passes)[..n] == passes[..n];
      StampsNeverGoBack(s, Init(passes), n);
      RunStamps(s, Init(passes));
      PassStamps(s, Final(s, Init(passes)), Last(passes), LastGoodStart(s, Init(passes)), LastGood(s, Init(passes)));
    }
  }

  /** No pass from n on succeeds. */
  predicate AllFailFrom(s: Settings, passes: seq<Pass>, n: nat) {
    forall i | n <= i < |passes| :: !Succeeds(s, Final(s, passes[..i]), passes[i])
  }

  /** The last pass of a run, and what it means for the last success. */
  lemma PassStep(s: Settings, passes: seq<Pass>)
    requires passes != []
    ensures Final(s, passes) == PassSpec(s, Final(s, Init(passes)), Last(passes))
    ensures !Succeeds(s, Final(s, Init(passes)), Last(passes)) ==> LastGood(s, passes) == LastGood(s, Init(passes))
  {
  }

  /** While every poll fails, the readings, the stamps and the last success stay what they were. */
  lemma {:induction false} FailuresChangeNoReading(s: Settings, passes: seq<Pass>, n: nat)
    requires CanRun(s, passes) && n <= |passes| && AllFailFrom(s, passes, n)
    ensures Final(s, passes[..n]).record.Some? && Final(s, passes).record.Some?
    ensures SameReadings(Final(s, passes[..n]).record.value, Final(s, passes).record.value)
    ensures LastGood(s, passes) == LastGood(s, passes[..n])
    decreases |passes|
  {
    if n == |passes| {
      assert passes[..n] == passes;
      RunStamps(s, passes);
    } else {
      LastAllowed(s, passes);
      PassStep(s, passes);
      hide Final, PassSpec, Attempt, Allowed, Stamped;
      var init := Init(passes);
      assert init[..n] == passes[..n];
      forall i | n <= i < |init| ensures !Succeeds(s, Final(s, init[..i]), init[i]) { assert init[..i] == passes[..i]; }
      FailuresChangeNoReading(s, init, n);
      RunStamps(s, init);
      assert !Succeeds(s, Final(s, passes[..|passes| - 1]), passes[|passes| - 1]);
      FailedPassKeepsReadings(s, Final(s, init), Last(passes));
    }
  }

  /**
   Staleness cannot be hidden: whatever failed since, the device is not fresh from staleAfter past
   the end of the last successful poll on, and is fresh until staleAfter past that poll's start.
   */
  lemma FreshnessFollowsSuccess(s: Settings, passes: seq<Pass>, now: Instant, staleAfter: int)
    requires CanRun(s, passes)
    ensures Final(s, passes).record.Some?
    ensures var d := Final(s, passes).record.value;
            && (now >= LastGood(s, passes) + staleAfter ==> !d.Fresh(now, staleAfter))
            && (LastGood(s, passes) == 0 ==> !d.Fresh(now, staleAfter))
            && (LastGood(s, passes) > 0 && now < LastGoodStart(s, passes) + staleAfter ==> d.Fresh(now, staleAfter))
  {
    RunStamps(s, passes);
  }

  // ---- pacing of the slow endpoints ----

  /** The stamps of the system readings published, in order. */
  function SystemStamps(events: seq<Event>): seq<Instant> {
    if events == [] then []
    else
      var earlier, last := SystemStamps(events[..|events| - 1]), events[|events| - 1];
      if last.Published? && last.mutation != [] && last.mutation[|last.mutation| - 1].SetSystemAt?
      then earlier + [last.mutation[|last.mutation| - 1].at]
      else earlier
  }

  lemma SystemStampsStep(events: seq<Event>, e: Event)
    ensures SystemStamps(events + [e]) ==
            if e.Published? && e.mutation != [] && e.mutation[|e.mutation| - 1].SetSystemAt?
            then SystemStamps(events) + [e.mutation[|e.mutation| - 1].at]
            else SystemStamps(events)
  {
  }

  predicate Apart(stamps: seq<Instant>, every: int) {
    forall i | 0 <= i < |stamps| - 1 :: stamps[i + 1] - stamps[i] >= every
  }

  /** The record's own system stamp is the last one published, and successive ones are far enough apart. */
  predicate Paced(l: Live, every: int) {
    && l.record.Some?
    && Apart(SystemStamps(l.events), every)
    && l.record.value.systemAt == (var t := SystemStamps(l.events); if t == [] then 0 else t[|t| - 1])
    && forall i | 0 <= i < |SystemStamps(l.events)| :: SystemStamps(l.events)[i] > 0
  }

  lemma AskPaced(c: Connection, l: Live, e: Endpoint, failure: Option<ErrorKind>, every: int)
    requires Paced(l, every)
    ensures Paced(Ask(c, l, e, failure), every)
  {
  }

  /** Publishing anything but a system reading. */
  lemma OtherPaced(name: string, l: Live, m: Mutation, every: int)
    requires Paced(l, every) && m != [] && !m[|m| - 1].SetSystemAt?
    requires Apply(l.record.value, m).systemAt == l.record.value.systemAt
    ensures Paced(Publish(name, l, m), every)
  {
    hide Apply, SystemStamps, Apart;
    SystemStampsStep(l.events, Published(m));
    var l' := Publish(name, l, m);
    assert SystemStamps(l'.events) == SystemStamps(l.events);
    assert l'.record == Some(Apply(l.record.value, m));
  }

  lemma SystemPaced(name: string, c: Connection, l: Live, p: Pass, every: int)
    requires Paced(l, every) && DueSpec(l.record, p.dueAt, every) && p.dueAt <= p.systemAt && 0 < p.systemAt
    ensures Paced(Secondary(name, c, l, SystemEndpoint, Failure(p.system), SystemWrites(p)), every)
  {
    hide SystemStamps, Apply;
    AskPaced(c, l, SystemEndpoint, Failure(p.system), every);
    var asked := Ask(c, l, SystemEndpoint, Failure(p.system));
    SystemEffect(name, c, l, p);
    match p.system
    case Ok(v) => SystemStampsStep(asked.events, Published(SystemWrites(p)));
    case Err(k) =>
      if k.NotFound? {
        ApplyNotedCaps(l.record.value, Without(l.caps, "system"));
        OtherPaced(name, asked.(caps := Without(l.caps, "system")), [SetCaps(Without(l.caps, "system"))], every);
      }
  }

  lemma StatePaced(name: string, c: Connection, l: Live, p: Pass, every: int)
    requires Paced(l, every)
    ensures Paced(Secondary(name, c, l, StateEndpoint, Failure(p.state), StateWrites(p)), every)
  {
    AskPaced(c, l, StateEndpoint, Failure(p.state), every);
    var asked := Ask(c, l, StateEndpoint, Failure(p.state));
    match p.state
    case Ok(v) =>
      ApplyTwo(l.record.value, SetState(v), SetStateAt(p.stateAt));
      OtherPaced(name, asked, StateWrites(p), every);
    case Err(k) =>
      if k.NotFound? {
        ApplyNotedCaps(l.record.value, Without(l.caps, "state"));
        OtherPaced(name, asked.(caps := Without(l.caps, "state")), [SetCaps(Without(l.caps, "state"))], every);
      }
  }

  lemma BatteriesPaced(name: string, c: Connection, l: Live, p: Pass, every: int)
    requires Paced(l, every)
    ensures Paced(Secondary(name, c, l, BatteriesEndpoint, Failure(p.batteries), BatteriesWrites(p)), every)
  {
    AskPaced(c, l, BatteriesEndpoint, Failure(p.batteries), every);
    var asked := Ask(c, l, BatteriesEndpoint, Failure(p.batteries));
    match p.batteries
    case Ok(v) =>
      ApplyTwo(l.record.value, SetBatteries(v), SetBatteriesAt(p.batteriesAt));
      OtherPaced(name, asked, BatteriesWrites(p), every);
    case Err(k) =>
      if k.NotFound? {
        ApplyNotedCaps(l.record.value, Without(l.caps, "batteries"));
        OtherPaced(name, asked.(caps := Without(l.caps, "batteries")), [SetCaps(Without(l.caps, "batteries"))], every);
      }
  }

  lemma RestPaced(name: string, c: Connection, l: Live, p: Pass, every: int)
    requires Paced(l, every) && p.dueAt <= p.systemAt && 0 < p.systemAt
    ensures Paced(PollRestSpec(name, c, every, l.caps, l, p), every)
  {
    StatePaced(name, c, l, p, every);
    var l1 := if l.caps.state then Secondary(name, c, l, StateEndpoint, Failure(p.state), StateWrites(p)) else l;
    if DueSpec(l1.record, p.dueAt, every) {
      SystemPaced(name, c, l1, p, every);
      var l2 :=
        if l1.caps.system then Secondary(name, c, l1, SystemEndpoint, Failure(p.system), SystemWrites(p)) else l1;
      BatteriesPaced(name, c, l2, p, every);
    }
  }

  lemma PassPaced(s: Settings, l: LoopState, p: Pass)
    requires Paced(LiveOf(l), s.systemInterval) && p.Ordered()
    ensures Paced(LiveOf(PassSpec(s, l, p)), s.systemInterval)
  {
    var every := s.systemInterval;
    if l.connection.Some? || p.connect.Ok? {
      var l1 := Ready(s, l, p);
      if l.connection.None? {
        var (version, info) := p.connect.value;
        ConnectEffect(s, l, version, info);
        var c := Connection(l.connects + 1, version, info);
        OtherPaced(s.name, LiveOf(l).(caps := CapabilitiesFor(info, version)),
                   IdentityOf(s.host, c, CapabilitiesFor(info, version)), every);
      }
      var c := l1.connection.value;
      AskPaced(c, LiveOf(l1), MeasurementEndpoint, Failure(p.measurement), every);
      if p.measurement.Ok? {
        var m := [SetMeasurement(p.measurement.value), SetMeasuredAt(p.measuredAt)];
        ApplyTwo(l1.record.value, m[0], m[1]);
        var asked := Ask(c, LiveOf(l1), MeasurementEndpoint, None);
        OtherPaced(s.name, asked, m, every);
        RestPaced(s.name, c, Publish(s.name, asked, m), p, every);
      }
    }
  }

  /** On every run, across reconnects and failures, successive system readings are system_interval apart. */
  lemma {:induction false} SystemReadingsArePaced(s: Settings, passes: seq<Pass>)
    requires CanRun(s, passes)
    ensures Paced(LiveOf(Final(s, passes)), s.systemInterval)
  {
    if passes == [] {
      assert SystemStamps([]) == [];
    } else {
      LastAllowed(s, passes);
      SystemReadingsArePaced(s, Init(passes));
      PassPaced(s, Final(s, Init(passes)), Last(passes));
    }
  }

  // ---- ownership ----

  /** The mutations a loop has published, in order. */
  function Mutations(events: seq<Event>): seq<Mutation> {
    if events == [] then []
    else
      var earlier, last := Mutations(events[..|events| - 1]), events[|events| - 1];
      if last.Published? then earlier + [last.mutation] else earlier
  }

  lemma MutationsStep(events: seq<Event>, e: Event)
    ensures Mutations(events + [e]) == if e.Published? then Mutations(events) + [e.mutation] else Mutations(events)
  {
  }

  /** Everything a device's loop has ever published, including Register's update. */
  function History(s: Settings, events: seq<Event>): seq<Mutation> {
    [[SetHost(s.host)]] + Mutations(events)
  }

  /** The loop's record is what its own updates build; this is what `due` reads back from the store. */
  predicate Owned(s: Settings, l: Live) {
    l.record == Replay(s.name, History(s, l.events))
  }

  lemma AskOwned(s: Settings, c: Connection, l: Live, e: Endpoint, failure: Option<ErrorKind>)
    requires Owned(s, l)
    ensures Owned(s, Ask(c, l, e, failure))
  {
  }

  lemma PublishOwned(s: Settings, l: Live, m: Mutation)
    requires Owned(s, l)
    ensures Owned(s, Publish(s.name, l, m))
  {
    MutationsStep(l.events, Published(m));
    ReplayStep(s.name, History(s, l.events), m);
    assert History(s, l.events + [Published(m)]) == History(s, l.events) + [m];
  }

  lemma SecondaryOwned(s: Settings, c: Connection, l: Live, e: Endpoint, failure: Option<ErrorKind>, m: Mutation)
    requires Owned(s, l)
    ensures Owned(s, Secondary(s.name, c, l, e, failure, m))
  {
    AskOwned(s, c, l, e, failure);
    var asked := Ask(c, l, e, failure);
    PublishOwned(s, asked, m);
    var caps := Without(l.caps, e.Name());
    PublishOwned(s, asked.(caps := caps), [SetCaps(caps)]);
  }

  lemma RestOwned(s: Settings, c: Connection, caps: Capabilities, l: Live, p: Pass)
    requires Owned(s, l)
    ensures Owned(s, PollRestSpec(s.name, c, s.systemInterval, caps, l, p))
  {
    SecondaryOwned(s, c, l, StateEndpoint, Failure(p.state), StateWrites(p));
    var l1 := if caps.state then Secondary(s.name, c, l, StateEndpoint, Failure(p.state), StateWrites(p)) else l;
    SecondaryOwned(s, c, l1, SystemEndpoint, Failure(p.system), SystemWrites(p));
    var l2 :=
      if l1.caps.system then Secondary(s.name, c, l1, SystemEndpoint, Failure(p.system), SystemWrites(p)) else l1;
    SecondaryOwned(s, c, l2, BatteriesEndpoint, Failure(p.batteries), BatteriesWrites(p));
  }

  lemma PassOwned(s: Settings, l: LoopState, p: Pass)
    requires Owned(s, LiveOf(l))
    ensures Owned(s, LiveOf(PassSpec(s, l, p)))
  {
    if l.connection.Some? || p.connect.Ok? {
      var l1 := Ready(s, l, p);
      if l.connection.None? {
        var (version, info) := p.connect.value;
        var caps := CapabilitiesFor(info, version);
        PublishOwned(s, LiveOf(l).(caps := caps), IdentityOf(s.host, Connection(l.connects + 1, version, info), caps));
      }
      var c := l1.connection.value;
      AskOwned(s, c, LiveOf(l1), MeasurementEndpoint, Failure(p.measurement));
      if p.measurement.Ok? {
        var m := [SetMeasurement(p.measurement.value), SetMeasuredAt(p.measuredAt)];
        var asked := Ask(c, LiveOf(l1), MeasurementEndpoint, None);
        PublishOwned(s, asked, m);
        RestOwned(s, c, l1.caps, Publish(s.name, asked, m), p);
      }
    }
  }

  lemma {:induction false} RunOwned(s: Settings, passes: seq<Pass>)
    ensures Owned(s, LiveOf(Final(s, passes)))
  {
    if passes == [] {
      RegisteredByRegister(s);
      assert History(s, []) == [[SetHost(s.host)]];
    } else {
      RunOwned(s, Init(passes));
      PassOwned(s, Final(s, Init(passes)), Last(passes));
    }
  }
}
