/**
 One polling loop taken apart into the steps between which other loops can run: at most one request and at
 most one update each. Nothing is assumed about the store but what `due` reads from it.
 */
module PollingSteps {
  import opened Wrappers
  import opened Homewizard
  import opened Snapshot
  import opened Polling
  import opened PollingRuns

  // ---- one loop, step by step ----

  /** Where a loop stands; the pass in progress is what its device and clock do. */
  datatype Pc =
    | Unregistered                               // Run has not yet stored the configured host
    | Resting                                    // waiting for the timer
    | Connecting(p: Pass)                        // the timer has fired
    | Measuring(p: Pass)                         // there is a client
    | AskingState(p: Pass, caps: Capabilities)   // the measurement is published; caps were read before it
    | CheckingDue(p: Pass)                       // due is about to read the store
    | AskingSystem(p: Pass)                      // pollSlow is entered
    | AskingBatteries(p: Pass, wanted: bool)     // wanted was read when pollSlow was entered
    | Ending(p: Pass, failure: Option<ErrorKind>)
  {
    predicate UsesClient() {
      Measuring? || AskingState? || CheckingDue? || AskingSystem? || AskingBatteries?
    }
  }

  /**
   A loop's local variables. `own.record` and `passes` are history: the record the loop's updates have built
   so far and the passes it has finished. No step looks at them.
   */
  datatype Runner = Runner(pc: Pc, own: LoopState, passes: seq<Pass>)

  /** The loop after a step, and the update it hands to the store. */
  datatype Outcome = Outcome(runner: Runner, update: Option<Mutation>)

  function With(l: LoopState, live: Live): LoopState {
    l.(record := live.record, caps := live.caps, events := live.events)
  }

  /** The update that follows from a secondary request. */
  function SecondaryUpdate(l: Live, e: Endpoint, failure: Option<ErrorKind>, m: Mutation): Option<Mutation> {
    match failure
    case None => Some(m)
    case Some(kind) => if kind.NotFound? then Some([SetCaps(Without(l.caps, e.Name()))]) else None
  }

  function AskSecondary(s: Settings, r: Runner, e: Endpoint, failure: Option<ErrorKind>, m: Mutation, next: Pc): Outcome
    requires r.own.connection.Some?
  {
    var l := LiveOf(r.own);
    Outcome(r.(pc := next, own := With(r.own, Secondary(s.name, r.own.connection.value, l, e, failure, m))),
            SecondaryUpdate(l, e, failure, m))
  }

  function Connect(s: Settings, r: Runner, p: Pass): Outcome {
    if r.own.connection.Some? then Outcome(r.(pc := Measuring(p)), None)
    else
      match p.connect
      case Err(kind) => Outcome(r.(pc := Ending(p, Some(kind))), None)
      case Ok((version, info)) =>
        var c := Connection(r.own.connects + 1, version, info);
        Outcome(r.(pc := Measuring(p), own := Connected(s, r.own, version, info)),
                Some(IdentityOf(s.host, c, CapabilitiesFor(info, version))))
  }

  function Measure(s: Settings, r: Runner, p: Pass): Outcome
    requires r.own.connection.Some?
  {
    var asked := Ask(r.own.connection.value, LiveOf(r.own), MeasurementEndpoint, Failure(p.measurement));
    match p.measurement
    case Err(kind) => Outcome(r.(pc := Ending(p, Some(kind)), own := With(r.own, asked)), None)
    case Ok(m) =>
      var writes := [SetMeasurement(m), SetMeasuredAt(p.measuredAt)];
      Outcome(r.(pc := AskingState(p, r.own.caps), own := With(r.own, Publish(s.name, asked, writes))), Some(writes))
  }

  /** One step of a loop. `begun` is the pass a fired timer begins, `read` what the store says of the device now. */
  function Act(s: Settings, r: Runner, begun: Pass, read: Option<Device>): Outcome
    requires r.pc.UsesClient() ==> r.own.connection.Some?
  {
    match r.pc
    case Unregistered => Outcome(Runner(Resting, Initial(s, Some(Registered(s))), []), Some([SetHost(s.host)]))
    case Resting => Outcome(r.(pc := Connecting(begun)), None)
    case Connecting(p) => Connect(s, r, p)
    case Measuring(p) => Measure(s, r, p)
    case AskingState(p, caps) =>
      if caps.state then AskSecondary(s, r, StateEndpoint, Failure(p.state), StateWrites(p), CheckingDue(p))
      else Outcome(r.(pc := CheckingDue(p)), None)
    case CheckingDue(p) =>
      Outcome(r.(pc := if DueSpec(read, p.dueAt, s.systemInterval) then AskingSystem(p) else Ending(p, None)), None)
    case AskingSystem(p) =>
      var next := AskingBatteries(p, r.own.caps.batteries);
      if r.own.caps.system then AskSecondary(s, r, SystemEndpoint, Failure(p.system), SystemWrites(p), next)
      else Outcome(r.(pc := next), None)
    case AskingBatteries(p, wanted) =>
      if wanted then AskSecondary(s, r, BatteriesEndpoint, Failure(p.batteries), BatteriesWrites(p), Ending(p, None))
      else Outcome(r.(pc := Ending(p, None)), None)
    case Ending(p, failure) => Outcome(Runner(Resting, Closed(s, r.own, failure, p), r.passes + [p]), None)
  }

  /** A pass begins when its timer has fired; the jitter drawn at its end is in range. */
  predicate MayAct(s: Settings, r: Runner, begun: Pass) {
    && (r.pc.UsesClient() ==> r.own.connection.Some?)
    && (r.pc.Resting? ==>
          r.own.running && begun.Ordered() && r.own.now <= begun.start && r.own.wakeAt <= begun.start)
    && (r.pc.Ending? ==>
          JitterInRange(if r.pc.failure.Some? then r.own.backoff else s.interval, r.pc.p.jitter))
  }

  // ---- a loop alone ----

  /** Everything a loop has handed to the store, in order. */
  function Written(s: Settings, r: Runner): seq<Mutation> {
    if r.pc.Unregistered? then [] else History(s, r.own.events)
  }

  /** Where the pass in progress would end if the store answered `due` with the loop's own record. */
  function Future(s: Settings, pc: Pc, own: LoopState): (LoopState, Option<ErrorKind>)
    requires !pc.Unregistered? && !pc.Resting?
    requires pc.UsesClient() ==> own.connection.Some?
  {
    match pc
    case Connecting(p) => Attempt(s, own, p)
    case Measuring(p) => PollFrom(s, own, p)
    case AskingState(p, caps) =>
      (With(own, PollRestSpec(s.name, own.connection.value, s.systemInterval, caps, LiveOf(own), p)), None)
    case CheckingDue(p) =>
      if DueSpec(own.record, p.dueAt, s.systemInterval) then
        (With(own, PollSlowSpec(s.name, own.connection.value, LiveOf(own), p)), None)
      else (own, None)
    case AskingSystem(p) => (With(own, PollSlowSpec(s.name, own.connection.value, LiveOf(own), p)), None)
    case AskingBatteries(p, wanted) =>
      if wanted then
        (With(own, Secondary(s.name, own.connection.value, LiveOf(own), BatteriesEndpoint, Failure(p.batteries),
                             BatteriesWrites(p))), None)
      else (own, None)
    case Ending(p, failure) => (own, failure)
  }

  /** The pass in progress began where an admissible run ended, and is on its way to what it would do alone. */
  predicate OnCourse(s: Settings, r: Runner) {
    match r.pc
    case Unregistered => r.passes == [] && r.own == Initial(s, None)
    case Resting => r.own == Final(s, r.passes)
    case _ =>
      var p, base := r.pc.p, Final(s, r.passes);
      && (r.pc.UsesClient() ==> r.own.connection.Some?)
      && base.running && p.Ordered() && base.now <= p.start && base.wakeAt <= p.start
      && r.own.backoff == base.backoff
      && Future(s, r.pc, r.own) == Attempt(s, base, p)
  }

  ghost predicate RunnerInv(s: Settings, r: Runner) {
    && CanRun(s, r.passes)
    && r.own.record == Replay(s.name, Written(s, r))
    && OnCourse(s, r)
  }

  function Handed(update: Option<Mutation>): seq<Mutation> {
    match update case None => [] case Some(m) => [m]
  }

  // ---- every step keeps a loop on course ----

  lemma AskWritten(s: Settings, c: Connection, l: Live, e: Endpoint, failure: Option<ErrorKind>)
    ensures History(s, Ask(c, l, e, failure).events) == History(s, l.events)
  {
    MutationsStep(l.events, Asked(c, e, failure));
  }

  lemma PublishWritten(s: Settings, l: Live, m: Mutation)
    ensures History(s, Publish(s.name, l, m).events) == History(s, l.events) + [m]
  {
    MutationsStep(l.events, Published(m));
  }

  lemma SecondaryWritten(s: Settings, c: Connection, l: Live, e: Endpoint, failure: Option<ErrorKind>, m: Mutation)
    ensures History(s, Secondary(s.name, c, l, e, failure, m).events) ==
            History(s, l.events) + Handed(SecondaryUpdate(l, e, failure, m))
  {
    hide History, Without;
    AskWritten(s, c, l, e, failure);
    var asked := Ask(c, l, e, failure);
    PublishWritten(s, asked, m);
    var caps := Without(l.caps, e.Name());
    PublishWritten(s, asked.(caps := caps), [SetCaps(caps)]);
  }

  /** A secondary request is recorded as it is handed over. */
  lemma AskSecondaryKeeps(s: Settings, r: Runner, e: Endpoint, failure: Option<ErrorKind>, m: Mutation, next: Pc)
    requires r.own.connection.Some? && r.own.record == Replay(s.name, History(s, r.own.events))
    ensures var out := AskSecondary(s, r, e, failure, m, next);
            && History(s, out.runner.own.events) == History(s, r.own.events) + Handed(out.update)
            && out.runner.own.record == Replay(s.name, History(s, out.runner.own.events))
            && LiveOf(out.runner.own) == Secondary(s.name, r.own.connection.value, LiveOf(r.own), e, failure, m)
            && out.runner.own == With(r.own, LiveOf(out.runner.own))
  {
    hide History, Secondary, SecondaryUpdate, Replay;
    SecondaryWritten(s, r.own.connection.value, LiveOf(r.own), e, failure, m);
    SecondaryOwned(s, r.own.connection.value, LiveOf(r.own), e, failure, m);
  }

  ghost predicate Keeps(s: Settings, r: Runner, out: Outcome) {
    RunnerInv(s, out.runner) && Written(s, out.runner) == Written(s, r) + Handed(out.update)
  }

  lemma RegisterKeeps(s: Settings, r: Runner, q: Pass, read: Option<Device>)
    requires RunnerInv(s, r) && r.pc.Unregistered?
    ensures Keeps(s, r, Act(s, r, q, read))
  {
    RegisteredByRegister(s);
    assert History(s, []) == [[SetHost(s.host)]];
  }

  lemma BeginKeeps(s: Settings, r: Runner, q: Pass, read: Option<Device>)
    requires RunnerInv(s, r) && r.pc.Resting? && MayAct(s, r, q)
    ensures Keeps(s, r, Act(s, r, q, read))
  {
    hide History, Replay, Final, CanRun, Attempt;
  }

  lemma ConnectKeeps(s: Settings, r: Runner, q: Pass, read: Option<Device>)
    requires RunnerInv(s, r) && r.pc.Connecting?
    ensures Keeps(s, r, Act(s, r, q, read))
  {
    hide History, Replay, Final, CanRun, PollFrom, CapabilitiesFor;
    var p := r.pc.p;
    if r.own.connection.None? && p.connect.Ok? {
      var (version, info) := p.connect.value;
      var c, caps := Connection(r.own.connects + 1, version, info), CapabilitiesFor(info, version);
      var l := LiveOf(r.own).(caps := caps);
      PublishOwned(s, l, IdentityOf(s.host, c, caps));
      PublishWritten(s, l, IdentityOf(s.host, c, caps));
    }
  }

  lemma MeasureKeeps(s: Settings, r: Runner, q: Pass, read: Option<Device>)
    requires RunnerInv(s, r) && r.pc.Measuring?
    ensures Keeps(s, r, Act(s, r, q, read))
  {
    hide History, Replay, Final, CanRun, PollRestSpec, Attempt;
    var p, c := r.pc.p, r.own.connection.value;
    AskOwned(s, c, LiveOf(r.own), MeasurementEndpoint, Failure(p.measurement));
    AskWritten(s, c, LiveOf(r.own), MeasurementEndpoint, Failure(p.measurement));
    if p.measurement.Ok? {
      var asked := Ask(c, LiveOf(r.own), MeasurementEndpoint, None);
      var writes := [SetMeasurement(p.measurement.value), SetMeasuredAt(p.measuredAt)];
      PublishOwned(s, asked, writes);
      PublishWritten(s, asked, writes);
    }
  }

  lemma StateKeeps(s: Settings, r: Runner, q: Pass, read: Option<Device>)
    requires RunnerInv(s, r) && r.pc.AskingState?
    ensures Keeps(s, r, Act(s, r, q, read))
  {
    hide History, Replay, Final, CanRun, Secondary, SecondaryUpdate, PollSlowSpec, Attempt, DueSpec;
    var p := r.pc.p;
    AskSecondaryKeeps(s, r, StateEndpoint, Failure(p.state), StateWrites(p), CheckingDue(p));
  }

  /** `due` decides as it would alone, because the store shows the loop's own record. */
  lemma DueKeeps(s: Settings, r: Runner, q: Pass, read: Option<Device>)
    requires RunnerInv(s, r) && r.pc.CheckingDue? && read == r.own.record
    ensures Keeps(s, r, Act(s, r, q, read))
  {
    hide History, Replay, Final, CanRun, PollSlowSpec, Attempt, DueSpec;
  }

  lemma SystemKeeps(s: Settings, r: Runner, q: Pass, read: Option<Device>)
    requires RunnerInv(s, r) && r.pc.AskingSystem?
    ensures Keeps(s, r, Act(s, r, q, read))
  {
    hide History, Replay, Final, CanRun, Secondary, SecondaryUpdate, Attempt;
    var p := r.pc.p;
    AskSecondaryKeeps(s, r, SystemEndpoint, Failure(p.system), SystemWrites(p),
                      AskingBatteries(p, r.own.caps.batteries));
  }

  lemma BatteriesKeeps(s: Settings, r: Runner, q: Pass, read: Option<Device>)
    requires RunnerInv(s, r) && r.pc.AskingBatteries?
    ensures Keeps(s, r, Act(s, r, q, read))
  {
    hide History, Replay, Final, CanRun, Secondary, SecondaryUpdate, Attempt;
    var p := r.pc.p;
    AskSecondaryKeeps(s, r, BatteriesEndpoint, Failure(p.batteries), BatteriesWrites(p), Ending(p, None));
  }

  lemma Extended(s: Settings, passes: seq<Pass>, p: Pass)
    requires CanRun(s, passes) && Allowed(s, Final(s, passes), p)
    ensures CanRun(s, passes + [p]) && Final(s, passes + [p]) == PassSpec(s, Final(s, passes), p)
  {
    hide Allowed, PassSpec;
    var more := passes + [p];
    assert more[..|passes|] == passes;
    forall i | 0 <= i < |more| ensures Allowed(s, AfterPasses(s, Some(Registered(s)), more[..i]), more[i]) {
      if i < |passes| { assert more[..i] == passes[..i]; }
    }
  }

  /** A finished pass extends the admissible run. */
  lemma EndKeeps(s: Settings, r: Runner, q: Pass, read: Option<Device>)
    requires RunnerInv(s, r) && r.pc.Ending? && MayAct(s, r, q)
    ensures Keeps(s, r, Act(s, r, q, read))
  {
    hide History, Replay, Closed, Attempt, CanRun, Final;
    var p, failure := r.pc.p, r.pc.failure;
    ClosedKeeps(s, r.own, failure, p);
    assert Allowed(s, Final(s, r.passes), p);
    hide Allowed;
    Extended(s, r.passes, p);
  }

  lemma ActKeeps(s: Settings, r: Runner, q: Pass, read: Option<Device>)
    requires RunnerInv(s, r) && MayAct(s, r, q) && (r.pc.CheckingDue? ==> read == r.own.record)
    ensures Keeps(s, r, Act(s, r, q, read))
  {
    match r.pc
    case Unregistered => RegisterKeeps(s, r, q, read);
    case Resting => BeginKeeps(s, r, q, read);
    case Connecting(_) => ConnectKeeps(s, r, q, read);
    case Measuring(_) => MeasureKeeps(s, r, q, read);
    case AskingState(_, _) => StateKeeps(s, r, q, read);
    case CheckingDue(_) => DueKeeps(s, r, q, read);
    case AskingSystem(_) => SystemKeeps(s, r, q, read);
    case AskingBatteries(_, _) => BatteriesKeeps(s, r, q, read);
    case Ending(_, _) => EndKeeps(s, r, q, read);
  }
}
