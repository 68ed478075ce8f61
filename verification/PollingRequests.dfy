/** Which endpoints a client is asked for, over whole runs. */
module PollingRequests {
  import opened Wrappers
  import opened Homewizard
  import opened Snapshot
  import opened Polling
  import opened PollingEffects
  import opened PollingRuns

  predicate Allows(caps: Capabilities, e: Endpoint) {
    match e
    case MeasurementEndpoint => true
    case StateEndpoint => caps.state
    case SystemEndpoint => caps.system
    case BatteriesEndpoint => caps.batteries
  }

  /** An endpoint other than the measurement that answered not-found is never asked again by that client. */
  predicate NeverAgain(events: seq<Event>) {
    forall i, j | 0 <= i < j < |events| && events[i].Asked? && events[j].Asked? ::
      events[i].failure == Some(NotFound) && events[j].connection.id == events[i].connection.id
      && events[j].endpoint == events[i].endpoint
      ==> events[i].endpoint.MeasurementEndpoint?
  }

  /** The batteries are asked for on v2 only, the relay state never on v2. */
  predicate RightGeneration(events: seq<Event>) {
    forall i | 0 <= i < |events| && events[i].Asked? ::
      && (events[i].endpoint.BatteriesEndpoint? ==> events[i].connection.version == APIv2)
      && (events[i].endpoint.StateEndpoint? ==> events[i].connection.version != APIv2)
  }

  predicate IdsUpTo(events: seq<Event>, id: nat) {
    forall i | 0 <= i < |events| && events[i].Asked? :: events[i].connection.id <= id
  }

  /** What the current client did not find is switched off. */
  predicate SwitchedOff(events: seq<Event>, id: nat, caps: Capabilities) {
    forall i | 0 <= i < |events| && events[i].Asked? ::
      events[i].connection.id == id && events[i].failure == Some(NotFound) && !events[i].endpoint.MeasurementEndpoint?
      ==> !Allows(caps, events[i].endpoint)
  }

  predicate Journal(events: seq<Event>, id: nat) {
    NeverAgain(events) && RightGeneration(events) && IdsUpTo(events, id)
  }

  /** The journal of a loop whose current client is `c`. */
  predicate ClientJournal(l: Live, c: Connection) {
    && Journal(l.events, c.id)
    && SwitchedOff(l.events, c.id, l.caps)
    && l.caps.Within(CapabilitiesFor(c.info, c.version))
  }

  /** Asking an endpoint that is not switched off keeps the rule. */
  lemma AskNeverAgain(events: seq<Event>, caps: Capabilities, x: Event)
    requires x.Asked? && NeverAgain(events) && SwitchedOff(events, x.connection.id, caps) && Allows(caps, x.endpoint)
    ensures NeverAgain(events + [x])
  {
  }

  lemma AskRightGeneration(events: seq<Event>, x: Event)
    requires x.Asked? && RightGeneration(events)
    requires Allows(CapabilitiesFor(x.connection.info, x.connection.version), x.endpoint)
    ensures RightGeneration(events + [x])
  {
  }

  lemma AskSwitchedOff(events: seq<Event>, caps: Capabilities, x: Event)
    requires x.Asked? && SwitchedOff(events, x.connection.id, caps)
    ensures x.failure != Some(NotFound) || x.endpoint.MeasurementEndpoint? ==>
              SwitchedOff(events + [x], x.connection.id, caps)
    ensures SwitchedOff(events + [x], x.connection.id, Without(caps, x.endpoint.Name()))
  {
  }

  lemma AskJournal(c: Connection, l: Live, e: Endpoint, failure: Option<ErrorKind>)
    requires ClientJournal(l, c) && Allows(l.caps, e)
    ensures Journal(Ask(c, l, e, failure).events, c.id)
    ensures failure != Some(NotFound) || e.MeasurementEndpoint? ==> ClientJournal(Ask(c, l, e, failure), c)
    ensures failure == Some(NotFound) ==> SwitchedOff(Ask(c, l, e, failure).events, c.id, Without(l.caps, e.Name()))
  {
    var x := Asked(c, e, failure);
    AskNeverAgain(l.events, l.caps, x);
    AskRightGeneration(l.events, x);
    AskSwitchedOff(l.events, l.caps, x);
  }

  lemma PublishJournal(name: string, c: Connection, l: Live, m: Mutation)
    requires ClientJournal(l, c)
    ensures ClientJournal(Publish(name, l, m), c)
  {
  }

  lemma SecondaryJournal(name: string, c: Connection, l: Live, e: Endpoint, failure: Option<ErrorKind>, m: Mutation)
    requires ClientJournal(l, c) && Allows(l.caps, e) && !e.MeasurementEndpoint?
    ensures ClientJournal(Secondary(name, c, l, e, failure, m), c)
  {
    AskJournal(c, l, e, failure);
    var asked := Ask(c, l, e, failure);
    if failure == Some(NotFound) {
      var caps := Without(l.caps, e.Name());
      PublishJournal(name, c, asked.(caps := caps), [SetCaps(caps)]);
    } else if failure.None? {
      PublishJournal(name, c, asked, m);
    }
  }

  lemma SystemKeepsBatteries(name: string, c: Connection, l: Live, p: Pass)
    ensures Secondary(name, c, l, SystemEndpoint, Failure(p.system), SystemWrites(p)).caps.batteries == l.caps.batteries
  {
  }

  lemma SlowJournal(name: string, c: Connection, l: Live, p: Pass)
    requires ClientJournal(l, c)
    ensures ClientJournal(PollSlowSpec(name, c, l, p), c)
  {
    hide Secondary, ClientJournal, Failure, SystemWrites, BatteriesWrites;
    var l1 := if l.caps.system then Secondary(name, c, l, SystemEndpoint, Failure(p.system), SystemWrites(p)) else l;
    SystemKeepsBatteries(name, c, l, p);
    if l.caps.system { SecondaryJournal(name, c, l, SystemEndpoint, Failure(p.system), SystemWrites(p)); }
    if l.caps.batteries { SecondaryJournal(name, c, l1, BatteriesEndpoint, Failure(p.batteries), BatteriesWrites(p)); }
  }

  lemma PollJournal(name: string, c: Connection, every: int, l: Live, p: Pass)
    requires ClientJournal(l, c)
    ensures ClientJournal(PollSpec(name, c, every, l, p).0, c)
  {
    AskJournal(c, l, MeasurementEndpoint, Failure(p.measurement));
    if p.measurement.Ok? {
      var m := [SetMeasurement(p.measurement.value), SetMeasuredAt(p.measuredAt)];
      var asked := Ask(c, l, MeasurementEndpoint, None);
      PublishJournal(name, c, asked, m);
      var l0 := Publish(name, asked, m);
      if l.caps.state { SecondaryJournal(name, c, l0, StateEndpoint, Failure(p.state), StateWrites(p)); }
      var l1 := if l.caps.state then Secondary(name, c, l0, StateEndpoint, Failure(p.state), StateWrites(p)) else l0;
      SlowJournal(name, c, l1, p);
    }
  }

  /** The journal invariant between two passes. */
  predicate LoopJournal(l: LoopState) {
    && Journal(l.events, l.connects)
    && (l.connection.Some? ==> l.connection.value.id == l.connects && ClientJournal(LiveOf(l), l.connection.value))
  }

  lemma ConnectJournal(s: Settings, l: LoopState, version: string, info: Info)
    requires LoopJournal(l)
    ensures var l' := Connected(s, l, version, info);
            && l'.connection.Some? && l'.connection.value.id == l'.connects
            && ClientJournal(LiveOf(l'), l'.connection.value)
  {
  }

  lemma PassJournal(s: Settings, l: LoopState, p: Pass)
    requires LoopJournal(l)
    ensures LoopJournal(PassSpec(s, l, p))
  {
    if l.connection.Some? || p.connect.Ok? {
      if l.connection.None? { ConnectJournal(s, l, p.connect.value.0, p.connect.value.1); }
      var l1 := Ready(s, l, p);
      PollJournal(s.name, l1.connection.value, s.systemInterval, LiveOf(l1), p);
    }
  }

  lemma {:induction false} RunJournal(s: Settings, passes: seq<Pass>)
    ensures LoopJournal(Final(s, passes))
  {
    if passes != [] {
      RunJournal(s, Init(passes));
      PassJournal(s, Final(s, Init(passes)), Last(passes));
    }
  }

  /** On every run: no secondary endpoint is asked again after not-found, and each generation gets its own. */
  lemma RequestsOnEveryRun(s: Settings, passes: seq<Pass>)
    ensures NeverAgain(Final(s, passes).events)
    ensures RightGeneration(Final(s, passes).events)
  {
    RunJournal(s, passes);
  }

  // ---- the measurement ----

  /** This pass asks for the measurement and is told not-found. */
  predicate MeasurementNotFound(s: Settings, l: LoopState, p: Pass) {
    (l.connection.Some? || p.connect.Ok?) && p.measurement == Err(NotFound)
  }

  /** No endpoint at all is asked again by a client it told not-found. */
  predicate NothingAgain(events: seq<Event>) {
    forall i, j | 0 <= i < j < |events| && events[i].Asked? && events[j].Asked? ::
      !(events[i].failure == Some(NotFound) && events[j].connection.id == events[i].connection.id
        && events[j].endpoint == events[i].endpoint)
  }

  /** No request for the measurement was answered not-found. */
  predicate Quiet(events: seq<Event>) {
    forall i | 0 <= i < |events| && events[i].Asked? ::
      !(events[i].endpoint.MeasurementEndpoint? && events[i].failure == Some(NotFound))
  }

  /** The journal only grows, and what a secondary request adds is quiet. */
  predicate GrowsQuietly(l: Live, l': Live) {
    l.events <= l'.events && (Quiet(l.events) ==> Quiet(l'.events))
  }

  lemma SecondaryGrows(name: string, c: Connection, l: Live, e: Endpoint, failure: Option<ErrorKind>, m: Mutation)
    requires !e.MeasurementEndpoint?
    ensures GrowsQuietly(l, Secondary(name, c, l, e, failure, m))
  {
  }

  lemma SlowGrows(name: string, c: Connection, l: Live, p: Pass)
    ensures GrowsQuietly(l, PollSlowSpec(name, c, l, p))
  {
    hide Secondary, Failure, SystemWrites, BatteriesWrites;
    SecondaryGrows(name, c, l, SystemEndpoint, Failure(p.system), SystemWrites(p));
    var l1 := if l.caps.system then Secondary(name, c, l, SystemEndpoint, Failure(p.system), SystemWrites(p)) else l;
    SecondaryGrows(name, c, l1, BatteriesEndpoint, Failure(p.batteries), BatteriesWrites(p));
  }

  lemma PollGrows(name: string, c: Connection, every: int, l: Live, p: Pass)
    ensures var asked := Ask(c, l, MeasurementEndpoint, Failure(p.measurement));
            GrowsQuietly(asked, PollSpec(name, c, every, l, p).0)
  {
    hide Secondary, PollSlowSpec, DueSpec, StateWrites;
    if p.measurement.Ok? {
      var asked := Ask(c, l, MeasurementEndpoint, None);
      var l0 := Publish(name, asked, [SetMeasurement(p.measurement.value), SetMeasuredAt(p.measuredAt)]);
      SecondaryGrows(name, c, l0, StateEndpoint, Failure(p.state), StateWrites(p));
      var l1 := if l.caps.state then Secondary(name, c, l0, StateEndpoint, Failure(p.state), StateWrites(p)) else l0;
      SlowGrows(name, c, l1, p);
    }
  }

  lemma FailedPoll(name: string, c: Connection, every: int, l: Live, p: Pass)
    requires p.measurement.Err?
    ensures PollSpec(name, c, every, l, p) ==
            (Ask(c, l, MeasurementEndpoint, Some(p.measurement.error)), Some(p.measurement.error))
  {
  }

  /** A pass with a client extends the journal by its identity if new, the measurement request, and quiet events. */
  lemma PassGrows(s: Settings, l: LoopState, p: Pass)
    ensures l.events <= PassSpec(s, l, p).events
    ensures Quiet(l.events) && !MeasurementNotFound(s, l, p) ==> Quiet(PassSpec(s, l, p).events)
    ensures l.connection.Some? || p.connect.Ok? ==>
              var ready := Ready(s, l, p);
              && ready.connection.Some? && l.events <= ready.events && (Quiet(l.events) ==> Quiet(ready.events))
              && ready.events + [Asked(ready.connection.value, MeasurementEndpoint, Failure(p.measurement))]
                 <= PassSpec(s, l, p).events
    ensures MeasurementNotFound(s, l, p) ==>
              var ready, after := Ready(s, l, p), PassSpec(s, l, p);
              && after.events == ready.events + [Asked(ready.connection.value, MeasurementEndpoint, Some(NotFound))]
              && (!p.cancelled ==> after.connection == ready.connection)
  {
    if l.connection.Some? || p.connect.Ok? {
      hide PollSpec;
      var ready := Ready(s, l, p);
      PollGrows(s.name, ready.connection.value, s.systemInterval, LiveOf(ready), p);
      if p.measurement.Err? {
        FailedPoll(s.name, ready.connection.value, s.systemInterval, LiveOf(ready), p);
      }
    }
  }

  lemma {:induction false} EventsGrow(s: Settings, passes: seq<Pass>, n: nat)
    requires n <= |passes|
    ensures Final(s, passes[..n]).events <= Final(s, passes).events
    decreases |passes|
  {
    if n == |passes| {
      assert passes[..n] == passes;
    } else {
      assert Init(passes)[..n] == passes[..n];
      EventsGrow(s, Init(passes), n);
      PassGrows(s, Final(s, Init(passes)), Last(passes));
    }
  }

  predicate AlwaysFound(s: Settings, passes: seq<Pass>, n: nat)
    requires n <= |passes|
  {
    forall i | 0 <= i < n :: !MeasurementNotFound(s, Final(s, passes[..i]), passes[i])
  }

  lemma {:induction false} QuietRun(s: Settings, passes: seq<Pass>)
    requires AlwaysFound(s, passes, |passes|)
    ensures Quiet(Final(s, passes).events)
  {
    if passes != [] {
      var init := Init(passes);
      forall i | 0 <= i < |init| ensures !MeasurementNotFound(s, Final(s, init[..i]), init[i]) {
        assert init[..i] == passes[..i];
      }
      QuietRun(s, init);
      PassGrows(s, Final(s, init), Last(passes));
    }
  }

  lemma QuietButLast(events: seq<Event>)
    requires NeverAgain(events) && (Quiet(events) || (events != [] && Quiet(events[..|events| - 1])))
    ensures NothingAgain(events)
  {
  }

  /** A pass told not-found that is not the last: the next one asks the same client again. */
  lemma AskedAgain(s: Settings, passes: seq<Pass>, i: nat)
    requires CanRun(s, passes) && i + 1 < |passes| && MeasurementNotFound(s, Final(s, passes[..i]), passes[i])
    ensures !NothingAgain(Final(s, passes).events)
  {
    hide PassSpec;
    var l0, l1, l2 := Final(s, passes[..i]), Final(s, passes[..i + 1]), Final(s, passes[..i + 2]);
    CancelledIsLast(s, Some(Registered(s)), passes, i);
    RunStep(s, Some(Registered(s)), passes, i);
    RunStep(s, Some(Registered(s)), passes, i + 1);
    PassGrows(s, l0, passes[i]);
    PassGrows(s, l1, passes[i + 1]);
    EventsGrow(s, passes, i + 2);
    var c, events := l1.connection.value, Final(s, passes).events;
    var first, second := |l1.events| - 1, |l1.events|;
    assert events[first] == l1.events[first] == Asked(c, MeasurementEndpoint, Some(NotFound));
    assert events[second] == l2.events[second]
        == Asked(c, MeasurementEndpoint, Failure(passes[i + 1].measurement));
  }

  /**
   On a run no endpoint at all is asked again by a client it told not-found, if and only if no pass but the
   last is told so about its measurement.
   */
  lemma NothingIsAskedAgain(s: Settings, passes: seq<Pass>)
    requires CanRun(s, passes)
    ensures NothingAgain(Final(s, passes).events) <==>
            AlwaysFound(s, passes, if passes == [] then 0 else |passes| - 1)
  {
    RequestsOnEveryRun(s, passes);
    if passes != [] {
      var init, l := Init(passes), Final(s, Init(passes));
      if AlwaysFound(s, passes, |passes| - 1) {
        forall i | 0 <= i < |init| ensures !MeasurementNotFound(s, Final(s, init[..i]), init[i]) {
          assert init[..i] == passes[..i];
        }
        QuietRun(s, init);
        PassGrows(s, l, Last(passes));
        var events := Final(s, passes).events;
        if MeasurementNotFound(s, l, Last(passes)) {
          assert events[..|events| - 1] == Ready(s, l, Last(passes)).events;
        }
        QuietButLast(events);
      } else {
        var i :| 0 <= i < |passes| - 1 && MeasurementNotFound(s, Final(s, passes[..i]), passes[i]);
        AskedAgain(s, passes, i);
      }
    }
  }

  /** A pass at one moment whose measurement is answered not-found. */
  function NotFoundPass(version: string, info: Info, at: Instant): Pass {
    Pass(at, Ok((version, info)), Err(NotFound), at, Err(OtherFailure), at, at,
         Err(OtherFailure), at, Err(OtherFailure), at, at, false, 0)
  }

  /** A run on which that happens: the same client is told not-found twice about its measurement. */
  lemma MeasurementIsAskedAgain(s: Settings, version: string, info: Info) returns (p: Pass, q: Pass)
    ensures CanRun(s, [p, q]) && !NothingAgain(Final(s, [p, q]).events)
    ensures p.connect == q.connect == Ok((version, info)) && p.measurement == q.measurement == Err(NotFound)
  {
    p := NotFoundPass(version, info, 1);
    var l0 := Final(s, []);
    var l1 := PassSpec(s, l0, p);
    q := NotFoundPass(version, info, if l1.wakeAt > 1 then l1.wakeAt else 1);
    var passes := [p, q];
    assert passes[..0] == [] && passes[..1] == [p] && [p][..0] == [];
    assert Final(s, passes[..1]) == l1;
    assert l1.running && l1.now == 1;
    AskedAgain(s, passes, 0);
  }

  /**
   Whenever a loop waits, the published capabilities are those of the last connected client, and they
   are within what its product and API version allow.
   */
  lemma {:induction false} PublishedCapsAreTheClients(s: Settings, passes: seq<Pass>)
    requires CanRun(s, passes)
    ensures var l := Final(s, passes);
            && l.record.Some? && l.record.value.caps == l.caps
            && (l.connection.Some? ==>
                  l.caps.Within(CapabilitiesFor(l.connection.value.info, l.connection.value.version)))
  {
    RunJournal(s, passes);
    if passes != [] {
      LastAllowed(s, passes);
      PublishedCapsAreTheClients(s, Init(passes));
      PassKeepsCaps(s, Final(s, Init(passes)), Last(passes));
    }
  }

  lemma FinalStep(s: Settings, passes: seq<Pass>)
    requires passes != []
    ensures Final(s, passes) == PassSpec(s, Final(s, Init(passes)), Last(passes))
    ensures PassSpec(s, Final(s, Init(passes)), Last(passes)).connects >= Final(s, Init(passes)).connects
    ensures Final(s, Init(passes)).connection.None? && Final(s, passes).connection.Some? ==>
              Final(s, passes).connects > Final(s, Init(passes)).connects
  {
  }

  lemma {:induction false} ConnectsNeverDrop(s: Settings, passes: seq<Pass>, n: nat)
    requires n <= |passes|
    ensures Final(s, passes[..n]).connects <= Final(s, passes).connects
    decreases |passes|
  {
    if n == |passes| {
      assert passes[..n] == passes;
    } else {
      assert Init(passes)[..n] == passes[..n];
      ConnectsNeverDrop(s, Init(passes), n);
    }
  }

  /** A client's capabilities only shrink: as long as it is kept, later ones are within earlier ones. */
  lemma {:induction false} CapsOnlyShrink(s: Settings, passes: seq<Pass>, n: nat)
    requires CanRun(s, passes) && n <= |passes|
    requires Final(s, passes[..n]).connection.Some?
    requires Final(s, passes).connects == Final(s, passes[..n]).connects
    ensures Final(s, passes).caps.Within(Final(s, passes[..n]).caps)
    decreases |passes|
  {
    if n == |passes| {
      assert passes[..n] == passes;
    } else {
      hide *;
      FinalStep(s, passes);
      LastAllowed(s, passes);
      var init := Init(passes);
      assert init[..n] == passes[..n];
      ConnectsNeverDrop(s, init, n);
      CapsOnlyShrink(s, init, n);
      PublishedCapsAreTheClients(s, init);
      PassKeepsCaps(s, Final(s, init), Last(passes));
    }
  }
}
