/** What one pass of a polling loop does to the device's record, capabilities and journal. */
module PollingEffects {
  import opened Wrappers
  import opened Homewizard
  import opened Snapshot
  import opened Polling

  /** No reading and none of the four stamps differs. */
  predicate SameReadings(d: Device, e: Device) {
    && d.measurement == e.measurement && d.system == e.system && d.state == e.state && d.batteries == e.batteries
    && d.measuredAt == e.measuredAt && d.systemAt == e.systemAt && d.stateAt == e.stateAt
    && d.batteriesAt == e.batteriesAt
  }

  lemma ApplyNotedCaps(d: Device, caps: Capabilities)
    ensures Apply(d, [SetCaps(caps)]) == d.(caps := caps)
  {
  }

  /** Each secondary request changes its own section, or switches itself off, or changes nothing. */
  lemma StateEffect(name: string, c: Connection, l: Live, p: Pass)
    requires l.record.Some?
    ensures var l' := Secondary(name, c, l, StateEndpoint, Failure(p.state), StateWrites(p));
            && l'.record.Some?
            && l'.record.value == (match p.state
                                   case Ok(v) => l.record.value.(state := v, stateAt := p.stateAt)
                                   case Err(k) =>
                                     if k.NotFound? then l.record.value.(caps := l'.caps) else l.record.value)
            && l'.caps == if p.state == Err(NotFound) then l.caps.(state := false) else l.caps
  {
    match p.state
    case Ok(v) => ApplyTwo(l.record.value, SetState(v), SetStateAt(p.stateAt));
    case Err(_) => ApplyNotedCaps(l.record.value, l.caps.(state := false));
  }

  lemma SystemEffect(name: string, c: Connection, l: Live, p: Pass)
    requires l.record.Some?
    ensures var l' := Secondary(name, c, l, SystemEndpoint, Failure(p.system), SystemWrites(p));
            && l'.record.Some?
            && l'.record.value == (match p.system
                                   case Ok(v) => l.record.value.(system := v, systemAt := p.systemAt)
                                   case Err(k) =>
                                     if k.NotFound? then l.record.value.(caps := l'.caps) else l.record.value)
            && l'.caps == if p.system == Err(NotFound) then l.caps.(system := false) else l.caps
  {
    match p.system
    case Ok(v) => ApplyTwo(l.record.value, SetSystem(v), SetSystemAt(p.systemAt));
    case Err(_) => ApplyNotedCaps(l.record.value, l.caps.(system := false));
  }

  lemma BatteriesEffect(name: string, c: Connection, l: Live, p: Pass)
    requires l.record.Some?
    ensures var l' := Secondary(name, c, l, BatteriesEndpoint, Failure(p.batteries), BatteriesWrites(p));
            && l'.record.Some?
            && l'.record.value == (match p.batteries
                                   case Ok(v) => l.record.value.(batteries := v, batteriesAt := p.batteriesAt)
                                   case Err(k) =>
                                     if k.NotFound? then l.record.value.(caps := l'.caps) else l.record.value)
            && l'.caps == if p.batteries == Err(NotFound) then l.caps.(batteries := false) else l.caps
  {
    match p.batteries
    case Ok(v) => ApplyTwo(l.record.value, SetBatteries(v), SetBatteriesAt(p.batteriesAt));
    case Err(_) => ApplyNotedCaps(l.record.value, l.caps.(batteries := false));
  }

  /** Everything a step inside a poll may do to the record and the capabilities. */
  predicate Progress(l: Live, l': Live, p: Pass, every: int) {
    && l.record.Some? && l'.record.Some?
    && var d, d' := l.record.value, l'.record.value;
    && d'.name == d.name && d'.host == d.host && d'.info == d.info && d'.apiVersion == d.apiVersion
    && d'.measurement == d.measurement && d'.measuredAt == d.measuredAt
    && ((d'.state == d.state && d'.stateAt == d.stateAt) || (p.state == Ok(d'.state) && d'.stateAt == p.stateAt))
    && ((d'.system == d.system && d'.systemAt == d.systemAt)
        || (p.system == Ok(d'.system) && d'.systemAt == p.systemAt && DueSpec(l.record, p.dueAt, every)))
    && ((d'.batteries == d.batteries && d'.batteriesAt == d.batteriesAt)
        || (p.batteries == Ok(d'.batteries) && d'.batteriesAt == p.batteriesAt && DueSpec(l.record, p.dueAt, every)))
    && l'.caps.Within(l.caps)
    && (d.caps == l.caps ==> d'.caps == l'.caps)
  }

  lemma SlowProgress(name: string, c: Connection, l: Live, p: Pass, every: int)
    requires l.record.Some? && DueSpec(l.record, p.dueAt, every)
    ensures Progress(l, PollSlowSpec(name, c, l, p), p, every)
  {
    SystemEffect(name, c, l, p);
    var l1 := if l.caps.system then Secondary(name, c, l, SystemEndpoint, Failure(p.system), SystemWrites(p)) else l;
    BatteriesEffect(name, c, l1, p);
  }

  lemma RestProgress(name: string, c: Connection, every: int, l: Live, p: Pass)
    requires l.record.Some?
    ensures Progress(l, PollRestSpec(name, c, every, l.caps, l, p), p, every)
  {
    StateEffect(name, c, l, p);
    var l1 := if l.caps.state then Secondary(name, c, l, StateEndpoint, Failure(p.state), StateWrites(p)) else l;
    if DueSpec(l1.record, p.dueAt, every) { SlowProgress(name, c, l1, p, every); }
  }

  /** A poll either fails and leaves the record alone, or publishes a measurement and goes on from there. */
  lemma PollEffect(name: string, c: Connection, every: int, l: Live, p: Pass)
    requires l.record.Some?
    ensures var (l', failure) := PollSpec(name, c, every, l, p);
            match p.measurement
            case Err(k) => failure == Some(k) && l'.record == l.record && l'.caps == l.caps
            case Ok(m) =>
              failure.None? &&
              Progress(l.(record := Some(l.record.value.(measurement := m, measuredAt := p.measuredAt))), l', p, every)
  {
    match p.measurement
    case Err(_) =>
    case Ok(m) =>
      ApplyTwo(l.record.value, SetMeasurement(m), SetMeasuredAt(p.measuredAt));
      var measured := Publish(name, Ask(c, l, MeasurementEndpoint, None),
                              [SetMeasurement(m), SetMeasuredAt(p.measuredAt)]);
      RestProgress(name, c, every, measured, p);
  }

  /** The endpoints asked, in order. */
  function Requests(events: seq<Event>): seq<Endpoint> {
    if events == [] then []
    else
      var earlier, last := Requests(events[..|events| - 1]), events[|events| - 1];
      if last.Asked? then earlier + [last.endpoint] else earlier
  }

  lemma RequestsStep(events: seq<Event>, e: Event)
    ensures Requests(events + [e]) == if e.Asked? then Requests(events) + [e.endpoint] else Requests(events)
  {
  }

  lemma SecondaryRequests(name: string, c: Connection, l: Live, e: Endpoint, failure: Option<ErrorKind>, m: Mutation)
    ensures Requests(Secondary(name, c, l, e, failure, m).events) == Requests(l.events) + [e]
  {
  }

  function Maybe(condition: bool, e: Endpoint): seq<Endpoint> {
    if condition then [e] else []
  }

  /** The sections and capabilities left when exactly the given requests were made. */
  predicate Sections(l: Live, l': Live, p: Pass, state: bool, system: bool, batteries: bool) {
    && l.record.Some? && l'.record.Some?
    && var d, d' := l.record.value, l'.record.value;
    && d'.measurement == d.measurement && d'.measuredAt == d.measuredAt
    && d'.state == (if state && p.state.Ok? then p.state.value else d.state)
    && d'.stateAt == (if state && p.state.Ok? then p.stateAt else d.stateAt)
    && d'.system == (if system && p.system.Ok? then p.system.value else d.system)
    && d'.systemAt == (if system && p.system.Ok? then p.systemAt else d.systemAt)
    && d'.batteries == (if batteries && p.batteries.Ok? then p.batteries.value else d.batteries)
    && d'.batteriesAt == (if batteries && p.batteries.Ok? then p.batteriesAt else d.batteriesAt)
    && l'.caps == l.caps.(state := l.caps.state && !(state && p.state == Err(NotFound)),
                          system := l.caps.system && !(system && p.system == Err(NotFound)),
                          batteries := l.caps.batteries && !(batteries && p.batteries == Err(NotFound)))
  }

  lemma SlowExactly(name: string, c: Connection, l: Live, p: Pass)
    requires l.record.Some?
    ensures var l' := PollSlowSpec(name, c, l, p);
            && Sections(l, l', p, false, l.caps.system, l.caps.batteries)
            && Requests(l'.events) == Requests(l.events) + Maybe(l.caps.system, SystemEndpoint)
                                      + Maybe(l.caps.batteries, BatteriesEndpoint)
  {
    var l1 := if l.caps.system then Secondary(name, c, l, SystemEndpoint, Failure(p.system), SystemWrites(p)) else l;
    SystemEffect(name, c, l, p);
    SecondaryRequests(name, c, l, SystemEndpoint, Failure(p.system), SystemWrites(p));
    assert Requests(l1.events) == Requests(l.events) + Maybe(l.caps.system, SystemEndpoint);
    BatteriesEffect(name, c, l1, p);
    SecondaryRequests(name, c, l1, BatteriesEndpoint, Failure(p.batteries), BatteriesWrites(p));
  }

  lemma SectionsChain(l: Live, l1: Live, l2: Live, p: Pass, state: bool, system: bool, batteries: bool)
    requires Sections(l, l1, p, state, false, false) && Sections(l1, l2, p, false, system, batteries)
    ensures Sections(l, l2, p, state, system, batteries)
  {
  }

  /** The optional request for the relay state. */
  lemma StateExactly(name: string, c: Connection, l: Live, p: Pass)
    requires l.record.Some?
    ensures var l1 :=
              if l.caps.state then Secondary(name, c, l, StateEndpoint, Failure(p.state), StateWrites(p)) else l;
            && Sections(l, l1, p, l.caps.state, false, false)
            && Requests(l1.events) == Requests(l.events) + Maybe(l.caps.state, StateEndpoint)
  {
    StateEffect(name, c, l, p);
    SecondaryRequests(name, c, l, StateEndpoint, Failure(p.state), StateWrites(p));
  }

  lemma RestExactly(name: string, c: Connection, every: int, l: Live, p: Pass)
    requires l.record.Some?
    ensures var l' := PollRestSpec(name, c, every, l.caps, l, p);
            var due := DueSpec(l.record, p.dueAt, every);
            && Sections(l, l', p, l.caps.state, due && l.caps.system, due && l.caps.batteries)
            && Requests(l'.events) == Requests(l.events) + Maybe(l.caps.state, StateEndpoint)
                                      + Maybe(due && l.caps.system, SystemEndpoint)
                                      + Maybe(due && l.caps.batteries, BatteriesEndpoint)
  {
    var l1 := if l.caps.state then Secondary(name, c, l, StateEndpoint, Failure(p.state), StateWrites(p)) else l;
    StateExactly(name, c, l, p);
    var due := DueSpec(l.record, p.dueAt, every);
    assert due == DueSpec(l1.record, p.dueAt, every);
    if due {
      SlowExactly(name, c, l1, p);
      SectionsChain(l, l1, PollSlowSpec(name, c, l1, p), p, l.caps.state, l1.caps.system, l1.caps.batteries);
    }
  }

  /**
   A successful poll publishes the measurement, asks exactly the endpoints its capabilities allow and
   that are due, publishes exactly the answers, and switches off exactly what was not found.
   */
  lemma PollExactly(name: string, c: Connection, every: int, l: Live, p: Pass)
    requires l.record.Some? && p.measurement.Ok?
    ensures var (l', failure) := PollSpec(name, c, every, l, p);
            var due := l.record.value.systemAt == 0 || p.dueAt - l.record.value.systemAt >= every;
            var measured := l.record.value.(measurement := p.measurement.value, measuredAt := p.measuredAt);
            && failure.None?
            && Sections(l.(record := Some(measured)), l', p, l.caps.state, due && l.caps.system,
                        due && l.caps.batteries)
            && Requests(l'.events) == Requests(l.events) + [MeasurementEndpoint] + Maybe(l.caps.state, StateEndpoint)
                                      + Maybe(due && l.caps.system, SystemEndpoint)
                                      + Maybe(due && l.caps.batteries, BatteriesEndpoint)
  {
    var m := [SetMeasurement(p.measurement.value), SetMeasuredAt(p.measuredAt)];
    ApplyTwo(l.record.value, m[0], m[1]);
    var asked := Ask(c, l, MeasurementEndpoint, None);
    RequestsStep(l.events, Asked(c, MeasurementEndpoint, None));
    RequestsStep(asked.events, Published(m));
    RestExactly(name, c, every, Publish(name, asked, m), p);
  }

  /** Connecting replaces the identity and nothing else. */
  lemma ConnectEffect(s: Settings, l: LoopState, version: string, info: Info)
    requires l.record.Some?
    ensures var l' := Connected(s, l, version, info);
            l'.record == Some(l.record.value.(host := s.host, info := info, caps := CapabilitiesFor(info, version),
                                              apiVersion := version))
  {
    var caps := CapabilitiesFor(info, version);
    ApplyFour(l.record.value, SetHost(s.host), SetInfo(info), SetCaps(caps), SetAPIVersion(version));
  }

  /** The record a pass starts polling with: the old one, with a new identity if the loop had to connect. */
  function Polled(s: Settings, l: LoopState, p: Pass): Device
    requires l.record.Some? && (l.connection.Some? || p.connect.Ok?)
  {
    if l.connection.Some? then l.record.value
    else
      var (version, info) := p.connect.value;
      l.record.value.(host := s.host, info := info, caps := CapabilitiesFor(info, version), apiVersion := version)
  }

  /** Everything one whole pass may do to record and capabilities, seen from outside. */
  lemma AttemptEffect(s: Settings, l: LoopState, p: Pass)
    requires l.record.Some?
    ensures var (l', failure) := Attempt(s, l, p);
            && l'.record.Some? && l'.backoff == l.backoff
            && (failure.Some? ==> SameReadings(l.record.value, l'.record.value))
            && (failure.None? ==>
                  && (l.connection.Some? || p.connect.Ok?) && p.measurement.Ok?
                  && Progress(Live(Some(Polled(s, l, p).(measurement := p.measurement.value,
                                                        measuredAt := p.measuredAt)),
                                   Ready(s, l, p).caps, []), LiveOf(l'), p, s.systemInterval))
  {
    if l.connection.Some? || p.connect.Ok? {
      if l.connection.None? { ConnectEffect(s, l, p.connect.value.0, p.connect.value.1); }
      var l1 := Ready(s, l, p);
      assert l1.record == Some(Polled(s, l, p));
      PollEffect(s.name, l1.connection.value, s.systemInterval, LiveOf(l1), p);
    }
  }

  /** A failed poll changes no reading and moves no stamp. */
  lemma FailedPassKeepsReadings(s: Settings, l: LoopState, p: Pass)
    requires l.record.Some? && Attempt(s, l, p).1.Some?
    ensures PassSpec(s, l, p).record.Some?
    ensures SameReadings(l.record.value, PassSpec(s, l, p).record.value)
  {
    AttemptEffect(s, l, p);
  }

  /** After every pass the published capabilities are those of the last connected client, if they were before. */
  lemma PassKeepsCaps(s: Settings, l: LoopState, p: Pass)
    requires l.record.Some? && l.record.value.caps == l.caps
    ensures PassSpec(s, l, p).record.Some?
    ensures PassSpec(s, l, p).record.value.caps == PassSpec(s, l, p).caps
    ensures l.connection.Some? ==> PassSpec(s, l, p).caps.Within(l.caps)
  {
    if l.connection.Some? || p.connect.Ok? {
      if l.connection.None? { ConnectEffect(s, l, p.connect.value.0, p.connect.value.1); }
      var l1 := Ready(s, l, p);
      PollEffect(s.name, l1.connection.value, s.systemInterval, LiveOf(l1), p);
    }
  }
}
