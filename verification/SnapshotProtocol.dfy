/**
 Store.Update taken apart into the steps another goroutine can observe, with any number of writers
 and any number of lock-free readers interleaved. Memory is explicit: snapshots, records and the readings
 inside a record live at addresses. Snapshots share records, and the shallow copy of a record shares its
 readings, by address; loading a snapshot copies nothing, it is read through later.
 */
module SnapshotProtocol {
  import opened Wrappers
  import opened Homewizard
  import opened Snapshot

  type Address = nat
  type Thread = nat

  /** Where one writer stands inside Update. */
  datatype Phase =
    | Idle
    | Waiting(change: Change)
    | Entered(change: Change)                                        // the lock is held
    | Allocated(change: Change, next: Address)                       // next := &Snapshot{...}
    | Copying(change: Change, next: Address, todo: set<string>)      // inside maps.Copy
    | Mutating(change: Change, next: Address, cell: Address, done: nat)
    | Linked(change: Change, next: Address, cell: Address)           // next.Devices[name] = device
    | Stored(change: Change)                                         // current.Store(next)

  /** What a reader got: the pointer, and how many updates had been published by then. */
  datatype Loaded = Loaded(reader: Thread, pointer: Option<Address>, published: nat)

  /** What the inner pointers of one section of a record lead to. */
  datatype Reading =
    | OfMeasurement(measurement: Measurement)
    | OfState(state: State)
    | OfSystem(system: System)
    | OfBatteries(batteries: Batteries)

  /** A record as it lies in memory: its plain fields, and one address for each section that has been set. */
  datatype Row = Row(
    plain: Device, measurement: Option<Address>, state: Option<Address>, system: Option<Address>,
    batteries: Option<Address>)
  {
    predicate Within(readings: map<Address, Reading>) {
      && (measurement.Some? ==> measurement.value in readings && readings[measurement.value].OfMeasurement?)
      && (state.Some? ==> state.value in readings && readings[state.value].OfState?)
      && (system.Some? ==> system.value in readings && readings[system.value].OfSystem?)
      && (batteries.Some? ==> batteries.value in readings && readings[batteries.value].OfBatteries?)
    }

    /** What following every pointer of the record shows. */
    function Device(readings: map<Address, Reading>): Device
      requires Within(readings)
    {
      plain.(measurement := if measurement.Some? then readings[measurement.value].measurement else EmptyMeasurement,
             state := if state.Some? then readings[state.value].state else EmptyState,
             system := if system.Some? then readings[system.value].system else EmptySystem,
             batteries := if batteries.Some? then readings[batteries.value].batteries else EmptyBatteries)
    }

    /** An assignment of a mutator: a section is replaced by pointing at another reading. */
    function After(w: Write, reading: Address): Row {
      match w
      case SetMeasurement(_) => this.(measurement := Some(reading))
      case SetState(_) => this.(state := Some(reading))
      case SetSystem(_) => this.(system := Some(reading))
      case SetBatteries(_) => this.(batteries := Some(reading))
      case _ => this.(plain := ApplyWrite(plain, w))
    }
  }

  function NewRow(name: string): Row {
    Row(NewDevice(name), None, None, None, None)
  }

  /** The reading an assignment brings along, if any, at a place of its own. */
  function WithReading(readings: map<Address, Reading>, w: Write, reading: Address): map<Address, Reading> {
    match w
    case SetMeasurement(m) => readings[reading := OfMeasurement(m)]
    case SetState(v) => readings[reading := OfState(v)]
    case SetSystem(v) => readings[reading := OfSystem(v)]
    case SetBatteries(b) => readings[reading := OfBatteries(b)]
    case _ => readings
  }

  /** Readings are only ever added. */
  predicate Extends(more: map<Address, Reading>, readings: map<Address, Reading>) {
    forall a | a in readings :: a in more && more[a] == readings[a]
  }

  lemma RowUnmoved(row: Row, readings: map<Address, Reading>, more: map<Address, Reading>)
    requires row.Within(readings) && Extends(more, readings)
    ensures row.Within(more) && row.Device(more) == row.Device(readings)
  {
  }

  lemma ReadingAdded(readings: map<Address, Reading>, w: Write, reading: Address)
    requires reading !in readings
    ensures Extends(WithReading(readings, w, reading), readings)
  {
  }

  predicate BringsReading(w: Write) {
    w.SetMeasurement? || w.SetState? || w.SetSystem? || w.SetBatteries?
  }

  lemma SectionAfter(row: Row, readings: map<Address, Reading>, w: Write, reading: Address)
    requires BringsReading(w)
    requires row.Within(readings) && row.Within(WithReading(readings, w, reading))
    requires row.Device(WithReading(readings, w, reading)) == row.Device(readings)
    ensures row.After(w, reading).Within(WithReading(readings, w, reading))
    ensures row.After(w, reading).Device(WithReading(readings, w, reading)) == ApplyWrite(row.Device(readings), w)
  {
  }

  lemma PlainAfter(row: Row, readings: map<Address, Reading>, w: Write, reading: Address)
    requires !BringsReading(w) && row.Within(readings)
    ensures WithReading(readings, w, reading) == readings
    ensures row.After(w, reading).Within(readings)
    ensures row.After(w, reading).Device(readings) == ApplyWrite(row.Device(readings), w)
  {
  }

  lemma RowAfter(row: Row, readings: map<Address, Reading>, w: Write, reading: Address)
    requires row.Within(readings) && reading !in readings
    ensures Extends(WithReading(readings, w, reading), readings)
    ensures row.After(w, reading).Within(WithReading(readings, w, reading))
    ensures row.After(w, reading).Device(WithReading(readings, w, reading)) == ApplyWrite(row.Device(readings), w)
  {
    hide *;
    ReadingAdded(readings, w, reading);
    RowUnmoved(row, readings, WithReading(readings, w, reading));
    if BringsReading(w) {
      SectionAfter(row, readings, w, reading);
    } else {
      PlainAfter(row, readings, w, reading);
    }
  }

  datatype Memory = Memory(
    snapshots: map<Address, map<string, Address>>,
    records: map<Address, Row>,
    readings: map<Address, Reading>,
    current: Option<Address>,
    owner: Option<Thread>,
    phases: map<Thread, Phase>,
    // history, read by no step
    visible: set<Address>,          // snapshot addresses ever published
    shared: set<Address>,           // record addresses reachable from them
    order: seq<Change>,             // in the order the lock was taken
    log: seq<Change>,               // in the order of publication
    returned: seq<Change>,          // in the order Update returned
    loads: seq<Loaded>)
  {
    function PhaseOf(t: Thread): Phase {
      if t in phases then phases[t] else Idle
    }

    function CurrentNames(): map<string, Address>
      requires current.Some? ==> current.value in snapshots
    {
      if current.Some? then snapshots[current.value] else map[]
    }

    predicate Readable(p: Option<Address>) {
      p.Some? ==>
        && p.value in snapshots
        && forall name | name in snapshots[p.value] ::
             snapshots[p.value][name] in records && records[snapshots[p.value][name]].Within(readings)
    }

    /** What dereferencing a snapshot pointer shows at this moment. */
    function Show(p: Option<Address>): View
      requires Readable(p)
    {
      if p.None? then map[]
      else map name | name in snapshots[p.value] :: records[snapshots[p.value][name]].Device(readings)
    }
  }

  ghost predicate Init(s: Memory) {
    s == Memory(map[], map[], map[], None, None, map[], {}, {}, [], [], [], [])
  }

  datatype Step =
    | Call(t: Thread, change: Change)
    | Lock(t: Thread)
    | Allocate(t: Thread, next: Address)
    | LoadCurrent(t: Thread)
    | CopyEntry(t: Thread, name: string)
    | CopyDevice(t: Thread, cell: Address)
    | Assign(t: Thread, reading: Address)
    | Link(t: Thread)
    | Publish(t: Thread)
    | Unlock(t: Thread)
    | Load(reader: Thread)

  /** Addresses are taken from free memory; map entries are copied in any order. */
  predicate Enabled(s: Memory, step: Step) {
    match step
    case Call(t, change) => s.PhaseOf(t).Idle?
    case Lock(t) => s.PhaseOf(t).Waiting? && s.owner.None?
    case Allocate(t, next) => s.PhaseOf(t).Entered? && next !in s.snapshots
    case LoadCurrent(t) => s.PhaseOf(t).Allocated? && (s.current.Some? ==> s.current.value in s.snapshots)
    case CopyEntry(t, name) =>
      s.PhaseOf(t).Copying? && name in s.PhaseOf(t).todo && s.PhaseOf(t).next in s.snapshots &&
      s.current.Some? && s.current.value in s.snapshots && name in s.snapshots[s.current.value]
    case CopyDevice(t, cell) =>
      s.PhaseOf(t).Copying? && s.PhaseOf(t).todo == {} && cell !in s.records && s.PhaseOf(t).next in s.snapshots &&
      var held := s.snapshots[s.PhaseOf(t).next];
      var name := s.PhaseOf(t).change.name;
      name in held ==> held[name] in s.records
    case Assign(t, reading) =>
      && reading !in s.readings && s.PhaseOf(t).Mutating? && s.PhaseOf(t).done < |s.PhaseOf(t).change.mutation|
      && s.PhaseOf(t).cell in s.records
    case Link(t) =>
      s.PhaseOf(t).Mutating? && s.PhaseOf(t).done == |s.PhaseOf(t).change.mutation| &&
      s.PhaseOf(t).next in s.snapshots
    case Publish(t) => s.PhaseOf(t).Linked? && s.PhaseOf(t).next in s.snapshots
    case Unlock(t) => s.PhaseOf(t).Stored?
    case Load(_) => true
  }

  function Exec(s: Memory, step: Step): Memory
    requires Enabled(s, step)
  {
    match step
    case Call(t, change) => s.(phases := s.phases[t := Waiting(change)])
    case Lock(t) =>
      var change := s.PhaseOf(t).change;
      s.(owner := Some(t), phases := s.phases[t := Entered(change)], order := s.order + [change])
    case Allocate(t, next) =>
      s.(snapshots := s.snapshots[next := map[]], phases := s.phases[t := Allocated(s.PhaseOf(t).change, next)])
    case LoadCurrent(t) =>
      var p := s.PhaseOf(t);
      s.(phases := s.phases[t := Copying(p.change, p.next, s.CurrentNames().Keys)])
    case CopyEntry(t, name) =>
      var p := s.PhaseOf(t);
      var entry := s.snapshots[s.current.value][name];
      s.(snapshots := s.snapshots[p.next := s.snapshots[p.next][name := entry]],
         phases := s.phases[t := p.(todo := p.todo - {name})])
    case CopyDevice(t, cell) =>
      var p := s.PhaseOf(t);
      var held := s.snapshots[p.next];
      var row := if p.change.name in held then s.records[held[p.change.name]] else NewRow(p.change.name);
      s.(records := s.records[cell := row], phases := s.phases[t := Mutating(p.change, p.next, cell, 0)])
    case Assign(t, reading) =>
      var p := s.PhaseOf(t);
      var w := p.change.mutation[p.done];
      s.(records := s.records[p.cell := s.records[p.cell].After(w, reading)],
         readings := WithReading(s.readings, w, reading),
         phases := s.phases[t := p.(done := p.done + 1)])
    case Link(t) =>
      var p := s.PhaseOf(t);
      var linked: map<string, Address> := s.snapshots[p.next][p.change.name := p.cell];
      s.(snapshots := s.snapshots[p.next := linked],
         phases := s.phases[t := Linked(p.change, p.next, p.cell)])
    case Publish(t) =>
      var p := s.PhaseOf(t);
      s.(current := Some(p.next), phases := s.phases[t := Stored(p.change)],
         visible := s.visible + {p.next}, shared := s.shared + s.snapshots[p.next].Values,
         log := s.log + [p.change])
    case Unlock(t) =>
      var change := s.PhaseOf(t).change;
      s.(owner := None, phases := s.phases[t := Idle], returned := s.returned + [change])
    case Load(reader) =>
      s.(loads := s.loads + [Loaded(reader, s.current, |s.log|)])
  }

  ghost predicate Next(s: Memory, s': Memory) {
    exists step :: Enabled(s, step) && s' == Exec(s, step)
  }

  // ---- the invariant ----

  /** Published memory is closed and frozen memory is disjoint from what the lock holder is building. */
  ghost predicate MemoryInv(s: Memory) {
    && s.visible <= s.snapshots.Keys
    && s.shared <= s.records.Keys
    && (forall c | c in s.records :: s.records[c].Within(s.readings))
    && (forall a, name | a in s.visible && name in s.snapshots[a] :: s.snapshots[a][name] in s.shared)
    && (s.current.Some? ==> s.current.value in s.visible)
  }

  ghost predicate LockInv(s: Memory) {
    forall t: Thread :: s.owner == Some(t) <==> !s.PhaseOf(t).Idle? && !s.PhaseOf(t).Waiting?
  }

  ghost predicate BuildingInv(s: Memory)
    requires MemoryInv(s)
  {
    match s.owner
    case None => s.order == s.log == s.returned
    case Some(t) =>
      var p := s.PhaseOf(t);
      var old_ := s.CurrentNames();
      match p
      case Idle => false
      case Waiting(_) => false
      case Entered(change) => s.order == s.log + [change] && s.returned == s.log
      case Allocated(change, next) =>
        && s.order == s.log + [change] && s.returned == s.log
        && next in s.snapshots && next !in s.visible && s.snapshots[next] == map[]
      case Copying(change, next, todo) =>
        && s.order == s.log + [change] && s.returned == s.log
        && next in s.snapshots && next !in s.visible && todo <= old_.Keys
        && s.snapshots[next] == old_ - todo
      case Mutating(change, next, cell, done) =>
        && s.order == s.log + [change] && s.returned == s.log
        && next in s.snapshots && next !in s.visible && s.snapshots[next] == old_
        && cell in s.records && cell !in s.shared && done <= |change.mutation|
        && s.records[cell].Device(s.readings)
           == Apply(Previous(s.Show(s.current), change.name), change.mutation[..done])
      case Linked(change, next, cell) =>
        && s.order == s.log + [change] && s.returned == s.log
        && next in s.snapshots && next !in s.visible && s.snapshots[next] == old_[change.name := cell]
        && cell in s.records && cell !in s.shared
        && s.records[cell].Device(s.readings) == Apply(Previous(s.Show(s.current), change.name), change.mutation)
      case Stored(change) => s.order == s.log == s.returned + [change]
  }

  /** A loaded snapshot shows the updates published by the time of the load. */
  ghost predicate LoadShows(s: Memory, l: Loaded)
    requires MemoryInv(s)
  {
    && l.published <= |s.log|
    && (l.pointer.Some? ==> l.pointer.value in s.visible)
    && s.Show(l.pointer) == Fold(s.log[..l.published])
  }

  ghost predicate LoadsInv(s: Memory)
    requires MemoryInv(s)
  {
    && (forall i | 0 <= i < |s.loads| :: LoadShows(s, s.loads[i]))
    && (forall i, j | 0 <= i < j < |s.loads| :: s.loads[i].published <= s.loads[j].published)
  }

  ghost predicate Inv(s: Memory) {
    && MemoryInv(s)
    && LockInv(s)
    && BuildingInv(s)
    && s.Show(s.current) == Fold(s.log)
    && LoadsInv(s)
  }

  /** A thread inside Update holds the lock. */
  lemma Holds(s: Memory, t: Thread)
    requires LockInv(s) && !s.PhaseOf(t).Idle? && !s.PhaseOf(t).Waiting?
    ensures s.owner == Some(t)
  {
  }

  lemma NothingAdded(readings: map<Address, Reading>)
    ensures Extends(readings, readings)
  {
  }

  /** No step writes to a published snapshot, to a record reachable from one, or to any reading. */
  lemma StepKeepsPublished(s: Memory, step: Step)
    requires Inv(s) && Enabled(s, step)
    ensures var s' := Exec(s, step);
            && s.visible <= s'.visible <= s'.snapshots.Keys
            && s.shared <= s'.shared
            && (forall a | a in s.visible :: s'.snapshots[a] == s.snapshots[a])
            && (forall c | c in s.shared :: c in s'.records && s'.records[c] == s.records[c])
            && Extends(s'.readings, s.readings)
  {
    hide LoadsInv, Row.Within, Row.Device, Row.After, WithReading, Memory.Show, Memory.Readable, Fold, Apply, Extends;
    match step
    case Assign(t, reading) =>
      ReadingAdded(s.readings, s.PhaseOf(t).change.mutation[s.PhaseOf(t).done], reading);
      Holds(s, t);
    case _ => NothingAdded(s.readings);
  }

  lemma FrozenShow(s: Memory, s': Memory, p: Option<Address>)
    requires MemoryInv(s)
    requires p.Some? ==> p.value in s.visible
    requires forall a | a in s.visible :: a in s'.snapshots && s'.snapshots[a] == s.snapshots[a]
    requires forall c | c in s.shared :: c in s'.records && s'.records[c] == s.records[c]
    requires Extends(s'.readings, s.readings)
    ensures s'.Readable(p) && s'.Show(p) == s.Show(p)
  {
    hide Extends;
    forall c | c in s.shared
      ensures s.records[c].Within(s'.readings)
      ensures s.records[c].Device(s'.readings) == s.records[c].Device(s.readings)
    {
      RowUnmoved(s.records[c], s.readings, s'.readings);
    }
  }

  lemma StepKeepsRows(s: Memory, step: Step)
    requires MemoryInv(s) && Enabled(s, step)
    ensures forall c | c in Exec(s, step).records :: Exec(s, step).records[c].Within(Exec(s, step).readings)
  {
    var s' := Exec(s, step);
    if step.Assign? {
      var p := s.PhaseOf(step.t);
      RowAfter(s.records[p.cell], s.readings, p.change.mutation[p.done], step.reading);
      hide Extends, WithReading, Row.After;
      forall c | c in s.records ensures s.records[c].Within(s'.readings) {
        RowUnmoved(s.records[c], s.readings, s'.readings);
      }
    }
  }

  lemma StepKeepsMemory(s: Memory, step: Step)
    requires Inv(s) && Enabled(s, step)
    ensures MemoryInv(Exec(s, step))
  {
    hide Extends, WithReading, Row.After, Row.Within, Row.Device, LoadsInv;
    StepKeepsPublished(s, step);
    StepKeepsRows(s, step);
  }

  lemma StepKeepsLock(s: Memory, step: Step)
    requires Inv(s) && Enabled(s, step)
    ensures LockInv(Exec(s, step))
  {
  }

  /** A snapshot with one entry replaced shows one record replaced. */
  lemma ShowReplaced(s: Memory, next: Address, name: string, cell: Address)
    requires s.Readable(s.current) && next in s.snapshots && s.snapshots[next] == s.CurrentNames()[name := cell]
    requires cell in s.records && s.records[cell].Within(s.readings)
    ensures s.Readable(Some(next))
    ensures s.Show(Some(next)) == s.Show(s.current)[name := s.records[cell].Device(s.readings)]
  {
    hide Row.Within, Row.Device;
  }

  /** What the lock holder has built when it is about to publish. */
  lemma Built(s: Memory, t: Thread)
    requires Inv(s) && Enabled(s, Publish(t))
    ensures var p := s.PhaseOf(t);
            && s.Readable(s.current) && s.Show(s.current) == Fold(s.log)
            && p.next in s.snapshots && s.snapshots[p.next] == s.CurrentNames()[p.change.name := p.cell]
            && p.cell in s.records && s.records[p.cell].Within(s.readings)
            && s.records[p.cell].Device(s.readings)
               == Apply(Previous(s.Show(s.current), p.change.name), p.change.mutation)
  {
    hide Row.Within, Row.Device, LoadsInv, Fold, Apply, Previous;
    Holds(s, t);
  }

  lemma PublishMoves(s: Memory, t: Thread)
    requires Enabled(s, Publish(t))
    ensures var p, s' := s.PhaseOf(t), Exec(s, Publish(t));
            && s'.snapshots == s.snapshots && s'.records == s.records && s'.readings == s.readings
            && s'.current == Some(p.next) && s'.log == s.log + [p.change]
  {
  }

  /** Publishing shows exactly the next update applied as a whole. */
  lemma PublishShows(s: Memory, t: Thread)
    requires Inv(s) && Enabled(s, Publish(t))
    ensures MemoryInv(Exec(s, Publish(t)))
    ensures var s' := Exec(s, Publish(t)); s'.Show(s'.current) == Fold(s'.log)
  {
    StepKeepsMemory(s, Publish(t));
    Built(s, t);
    PublishMoves(s, t);
    var p, s' := s.PhaseOf(t), Exec(s, Publish(t));
    FoldStep(s.log, p.change);
    hide Inv, Row.Within, Row.Device, Fold, Apply, Exec;
    ShowReplaced(s, p.next, p.change.name, p.cell);
    assert s'.Readable(Some(p.next)) && s'.Show(Some(p.next)) == s.Show(Some(p.next));
  }

  lemma StepKeepsShown(s: Memory, step: Step)
    requires Inv(s) && Enabled(s, step)
    ensures MemoryInv(Exec(s, step))
    ensures Exec(s, step).Show(Exec(s, step).current) == Fold(Exec(s, step).log)
  {
    StepKeepsMemory(s, step);
    if step.Publish? {
      PublishShows(s, step.t);
    } else {
      StepKeepsPublished(s, step);
      FrozenShow(s, Exec(s, step), s.current);
    }
  }

  lemma LogGrows(s: Memory, step: Step)
    requires Enabled(s, step)
    ensures s.log <= Exec(s, step).log
    ensures !step.Load? ==> Exec(s, step).loads == s.loads
  {
  }

  lemma LoadKept(s: Memory, step: Step, l: Loaded)
    requires Inv(s) && Enabled(s, step) && LoadShows(s, l)
    ensures MemoryInv(Exec(s, step)) && LoadShows(Exec(s, step), l)
  {
    StepKeepsMemory(s, step);
    StepKeepsPublished(s, step);
    FrozenShow(s, Exec(s, step), l.pointer);
    LogGrows(s, step);
    hide Fold, LoadsInv, BuildingInv, LockInv, Memory.Show, Memory.Readable, Extends;
    assert Exec(s, step).log[..l.published] == s.log[..l.published];
  }

  lemma NewLoad(s: Memory, reader: Thread)
    requires Inv(s)
    ensures LoadShows(s, Loaded(reader, s.current, |s.log|))
  {
    hide LoadsInv, BuildingInv, LockInv;
    assert s.log[..|s.log|] == s.log;
  }

  lemma LoadAppends(s: Memory, reader: Thread)
    ensures Exec(s, Load(reader)) == s.(loads := s.loads + [Loaded(reader, s.current, |s.log|)])
  {
  }

  lemma StepKeepsLoads(s: Memory, step: Step)
    requires Inv(s) && Enabled(s, step)
    ensures MemoryInv(Exec(s, step)) && LoadsInv(Exec(s, step))
  {
    StepKeepsMemory(s, step);
    LogGrows(s, step);
    forall l | LoadShows(s, l) ensures LoadShows(Exec(s, step), l) { LoadKept(s, step, l); }
    if step.Load? {
      NewLoad(s, step.reader);
      assert forall i | 0 <= i < |s.loads| :: LoadShows(s, s.loads[i]) && s.loads[i].published <= |s.log| by {
        hide BuildingInv, LockInv, Memory.Show, Memory.Readable;
      }
      LoadAppends(s, step.reader);
    }
    hide LoadShows, BuildingInv, LockInv, MemoryInv, Memory.Show, Memory.Readable, Exec;
  }

  /** The steps of maps.Copy. */
  lemma CopyKeepsBuilding(s: Memory, step: Step)
    requires Inv(s) && Enabled(s, step) && (step.LoadCurrent? || step.CopyEntry?)
    ensures MemoryInv(Exec(s, step)) && BuildingInv(Exec(s, step))
  {
    StepKeepsMemory(s, step);
    var t := step.t;
    var p := s.PhaseOf(t);
    assert s.owner == Some(t);
    if step.CopyEntry? {
      assert s.snapshots[p.next][step.name := s.CurrentNames()[step.name]]
          == s.CurrentNames() - (p.todo - {step.name});
    } else {
      assert s.CurrentNames() - s.CurrentNames().Keys == map[];
    }
  }

  lemma NewRowShows(name: string, readings: map<Address, Reading>)
    ensures NewRow(name).Within(readings) && NewRow(name).Device(readings) == NewDevice(name)
  {
  }

  /** The record the shallow copy is made of shows what is published under its name, or a new device. */
  lemma CopiedRow(s: Memory, t: Thread, cell: Address)
    requires Inv(s) && Enabled(s, CopyDevice(t, cell))
    ensures var p, s' := s.PhaseOf(t), Exec(s, CopyDevice(t, cell));
            && s.snapshots[p.next] == s.CurrentNames() && p.next !in s.visible
            && s'.records[cell].Within(s.readings)
            && s'.records[cell].Device(s.readings) == Previous(s.Show(s.current), p.change.name)
  {
    hide LoadsInv, Row.After, Row.Within, Row.Device;
    var p := s.PhaseOf(t);
    Holds(s, t);
    assert s.CurrentNames() - {} == s.CurrentNames();
    NewRowShows(p.change.name, s.readings);
  }

  lemma CopyDeviceKeepsBuilding(s: Memory, t: Thread, cell: Address)
    requires Inv(s) && Enabled(s, CopyDevice(t, cell))
    ensures MemoryInv(Exec(s, CopyDevice(t, cell))) && BuildingInv(Exec(s, CopyDevice(t, cell)))
  {
    hide Extends, LoadsInv, Row.After, Row.Within, Row.Device, Memory.Show, Memory.Readable, Previous;
    var step := CopyDevice(t, cell);
    StepKeepsMemory(s, step);
    StepKeepsPublished(s, step);
    FrozenShow(s, Exec(s, step), s.current);
    CopiedRow(s, t, cell);
    Holds(s, t);
    assert s.PhaseOf(t).change.mutation[..0] == [];
  }

  /** Every assignment of the mutator reaches the new record and nothing else. */
  lemma AssignedRow(s: Memory, t: Thread, reading: Address)
    requires Inv(s) && Enabled(s, Assign(t, reading))
    ensures var p, s' := s.PhaseOf(t), Exec(s, Assign(t, reading));
            && p.cell !in s.shared && s.snapshots[p.next] == s.CurrentNames()
            && s'.records[p.cell].Within(s'.readings)
            && s'.records[p.cell].Device(s'.readings)
               == Apply(Previous(s.Show(s.current), p.change.name), p.change.mutation[..p.done + 1])
  {
    hide Extends, LoadsInv, Row.After, Row.Within, Row.Device, WithReading;
    var p := s.PhaseOf(t);
    Holds(s, t);
    RowAfter(s.records[p.cell], s.readings, p.change.mutation[p.done], reading);
    assert p.change.mutation[..p.done + 1][..p.done] == p.change.mutation[..p.done];
  }

  lemma AssignKeepsBuilding(s: Memory, t: Thread, reading: Address)
    requires Inv(s) && Enabled(s, Assign(t, reading))
    ensures MemoryInv(Exec(s, Assign(t, reading))) && BuildingInv(Exec(s, Assign(t, reading)))
  {
    hide Extends, LoadsInv, Row.After, Row.Within, Row.Device, WithReading, Memory.Show, Memory.Readable,
      Previous, Apply;
    var step := Assign(t, reading);
    StepKeepsMemory(s, step);
    StepKeepsPublished(s, step);
    FrozenShow(s, Exec(s, step), s.current);
    AssignedRow(s, t, reading);
    Holds(s, t);
  }

  lemma LinkKeepsBuilding(s: Memory, t: Thread)
    requires Inv(s) && Enabled(s, Link(t))
    ensures MemoryInv(Exec(s, Link(t))) && BuildingInv(Exec(s, Link(t)))
  {
    hide Extends, LoadsInv, Row.After, Row.Within, Row.Device, Memory.Show, Memory.Readable, Previous, Apply;
    StepKeepsMemory(s, Link(t));
    StepKeepsPublished(s, Link(t));
    FrozenShow(s, Exec(s, Link(t)), s.current);
    Holds(s, t);
    var p := s.PhaseOf(t);
    assert p.change.mutation[..p.done] == p.change.mutation;
  }

  /** Taking and releasing the lock, allocating and publishing. */
  lemma LockKeepsBuilding(s: Memory, step: Step)
    requires Inv(s) && Enabled(s, step) && (step.Lock? || step.Unlock? || step.Allocate? || step.Publish?)
    ensures MemoryInv(Exec(s, step)) && BuildingInv(Exec(s, step))
  {
    StepKeepsMemory(s, step);
    if !step.Lock? { assert s.owner == Some(step.t); }
  }

  /** A caller queueing up, or a reader, does not disturb the lock holder. */
  lemma OthersKeepBuilding(s: Memory, step: Step)
    requires Inv(s) && Enabled(s, step) && (step.Call? || step.Load?)
    ensures MemoryInv(Exec(s, step)) && BuildingInv(Exec(s, step))
  {
    var s' := Exec(s, step);
    StepKeepsMemory(s, step);
    FrozenShow(s, s', s.current);
    assert s.owner.Some? ==> s'.PhaseOf(s.owner.value) == s.PhaseOf(s.owner.value);
  }

  lemma StepKeepsBuilding(s: Memory, step: Step)
    requires Inv(s) && Enabled(s, step)
    ensures MemoryInv(Exec(s, step)) && BuildingInv(Exec(s, step))
  {
    match step
    case LoadCurrent(_) => CopyKeepsBuilding(s, step);
    case CopyEntry(_, _) => CopyKeepsBuilding(s, step);
    case CopyDevice(t, cell) => CopyDeviceKeepsBuilding(s, t, cell);
    case Assign(t, reading) => AssignKeepsBuilding(s, t, reading);
    case Link(t) => LinkKeepsBuilding(s, t);
    case Call(_, _) => OthersKeepBuilding(s, step);
    case Load(_) => OthersKeepBuilding(s, step);
    case Lock(_) => LockKeepsBuilding(s, step);
    case Unlock(_) => LockKeepsBuilding(s, step);
    case Allocate(_, _) => LockKeepsBuilding(s, step);
    case Publish(_) => LockKeepsBuilding(s, step);
  }

  lemma StepKeepsInv(s: Memory, step: Step)
    requires Inv(s) && Enabled(s, step)
    ensures Inv(Exec(s, step))
  {
    StepKeepsMemory(s, step);
    StepKeepsLock(s, step);
    StepKeepsBuilding(s, step);
    StepKeepsShown(s, step);
    StepKeepsLoads(s, step);
  }

  // ---- whole runs ----

  /** A run: a start and any interleaving of steps of any number of writers and readers. */
  ghost predicate Run(run: seq<Memory>) {
    && |run| > 0
    && Init(run[0])
    && forall i | 0 <= i < |run| - 1 :: Next(run[i], run[i + 1])
  }

  lemma {:induction false} RunKeepsInv(run: seq<Memory>, i: nat)
    requires Run(run) && i < |run|
    ensures Inv(run[i])
    decreases i
  {
    if i > 0 {
      RunKeepsInv(run, i - 1);
      assert Next(run[i - 1], run[i - 1 + 1]);
      var step :| Enabled(run[i - 1], step) && run[i] == Exec(run[i - 1], step);
      StepKeepsInv(run[i - 1], step);
    }
  }

  /**
   In every interleaving the published snapshot is the sequential fold of the published updates, which
   are the updates in lock order except for the one still being built; every Update that has returned
   is in it, in order.
   */
  lemma NoUpdateLostOrHalfVisible(run: seq<Memory>, i: nat)
    requires Run(run) && i < |run|
    ensures var s := run[i];
            && s.Readable(s.current)
            && s.Show(s.current) == Fold(s.log)
            && s.returned <= s.log <= s.order
            && |s.order| <= |s.returned| + 1
            && (s.owner.None? ==> s.returned == s.log == s.order)
  {
    RunKeepsInv(run, i);
  }

  lemma StepFreezes(s: Memory, s': Memory, p: Option<Address>)
    requires Inv(s) && Next(s, s') && (p.Some? ==> p.value in s.visible)
    ensures p.Some? ==> p.value in s'.visible
    ensures s.Readable(p) && s'.Readable(p) && s'.Show(p) == s.Show(p)
    ensures s.log <= s'.log
  {
    var step :| Enabled(s, step) && s' == Exec(s, step);
    StepKeepsPublished(s, step);
    LogGrows(s, step);
    FrozenShow(s, s', p);
    hide Exec, Enabled, LoadsInv, BuildingInv, LockInv, Extends;
  }

  lemma Visible(s: Memory, p: Option<Address>)
    requires Inv(s) && (p.Some? ==> p.value in s.visible)
    ensures s.Readable(p)
  {
  }

  lemma {:induction false} PublishedStaysFrozen(run: seq<Memory>, i: nat, j: nat, p: Option<Address>)
    requires Run(run) && i <= j < |run|
    requires p.Some? ==> p.value in run[i].visible
    ensures p.Some? ==> p.value in run[j].visible
    ensures run[i].Readable(p) && run[j].Readable(p) && run[j].Show(p) == run[i].Show(p)
    ensures run[i].log <= run[j].log
    decreases j - i
  {
    hide Inv, Next, Memory.Show, Memory.Readable;
    RunKeepsInv(run, i);
    Visible(run[i], p);
    if i < j {
      assert Next(run[i], run[i + 1]);
      StepFreezes(run[i], run[i + 1], p);
      PublishedStaysFrozen(run, i + 1, j, p);
    }
  }

  /** A loaded snapshot never changes again, and shows the updates published before the load, no others. */
  lemma LoadedSnapshotIsImmutable(run: seq<Memory>, i: nat, j: nat, k: nat)
    requires Run(run) && i <= j < |run| && k < |run[i].loads|
    ensures var l := run[i].loads[k];
            && run[j].Readable(l.pointer)
            && l.published <= |run[i].log| <= |run[j].log|
            && run[j].Show(l.pointer) == Fold(run[j].log[..l.published])
            && run[j].log[..l.published] == run[i].log[..l.published]
  {
    RunKeepsInv(run, i);
    var l := run[i].loads[k];
    PublishedStaysFrozen(run, i, j, l.pointer);
    assert run[j].log[..l.published] == run[i].log[..l.published];
  }

  /** Successive loads, of one reader or of several, see prefixes of one history that only get longer. */
  lemma LoadsSeeLongerAndLongerPrefixes(run: seq<Memory>, i: nat, a: nat, b: nat)
    requires Run(run) && i < |run| && a <= b < |run[i].loads|
    ensures var s := run[i];
            && s.loads[a].published <= s.loads[b].published <= |s.log|
            && s.Readable(s.loads[a].pointer) && s.Readable(s.loads[b].pointer)
            && s.Show(s.loads[a].pointer) == Fold(s.log[..s.loads[a].published])
            && s.Show(s.loads[b].pointer) == Fold(s.log[..s.loads[b].published])
  {
    RunKeepsInv(run, i);
  }

  /** In every interleaving a published record depends only on the updates of its own name. */
  lemma PublishedRecordIsItsOwnHistory(run: seq<Memory>, i: nat, name: string)
    requires Run(run) && i < |run|
    ensures run[i].Readable(run[i].current)
    ensures Find(run[i].Show(run[i].current), name) == Replay(name, Own(run[i].log, name))
    ensures WellNamed(run[i].Show(run[i].current))
  {
    RunKeepsInv(run, i);
    RecordDependsOnOwnUpdates(run[i].log, name);
    FoldWellNamed(run[i].log);
  }

  // ---- no step of Update can block while the lock is held ----

  function Mover(step: Step): Thread {
    if step.Load? then step.reader else step.t
  }

  lemma {:induction false} AddressBound(used: set<Address>) returns (bound: Address)
    ensures forall a | a in used :: a < bound
    decreases used
  {
    if used == {} {
      bound := 0;
    } else {
      var a :| a in used;
      var rest := AddressBound(used - {a});
      bound := if rest <= a then a + 1 else rest;
      forall b | b in used ensures b < bound { assert b == a || b in used - {a}; }
    }
  }

  lemma FreeAddress(used: set<Address>) returns (a: Address)
    ensures a !in used
  {
    a := AddressBound(used);
  }

  function NamesToCopy(s: Memory): nat {
    if s.current.Some? && s.current.value in s.snapshots then |s.snapshots[s.current.value]| else 0
  }

  /** How many steps the holder of the lock still has to take before it has released it. */
  function Left(s: Memory, t: Thread): nat {
    match s.PhaseOf(t)
    case Idle => 0
    case Waiting(_) => 0
    case Entered(change) => NamesToCopy(s) + |change.mutation| + 6
    case Allocated(change, _) => NamesToCopy(s) + |change.mutation| + 5
    case Copying(change, _, todo) => |todo| + |change.mutation| + 4
    case Mutating(change, _, _, done) => if done <= |change.mutation| then |change.mutation| - done + 3 else 0
    case Linked(_, _, _) => 2
    case Stored(_) => 1
  }

  predicate OneCloser(s: Memory, s': Memory, t: Thread) {
    && Left(s, t) == Left(s', t) + 1
    && (s'.owner == s.owner || (s'.owner.None? && Left(s', t) == 0))
  }

  lemma LoadCurrentStep(s: Memory, t: Thread)
    requires Enabled(s, LoadCurrent(t))
    ensures OneCloser(s, Exec(s, LoadCurrent(t)), t)
  {
    if s.current.Some? {
      var names := s.snapshots[s.current.value];
      assert |names.Keys| == |names|;
    }
  }

  /** Allocating the next snapshot does not change the current one. */
  lemma AllocateStep(s: Memory, t: Thread, next: Address)
    requires MemoryInv(s) && Enabled(s, Allocate(t, next))
    ensures OneCloser(s, Exec(s, Allocate(t, next)), t)
  {
  }

  lemma MutatingStep(s: Memory, t: Thread, reading: Address)
    requires s.PhaseOf(t).Mutating? && s.PhaseOf(t).done <= |s.PhaseOf(t).change.mutation|
    ensures Enabled(s, Assign(t, reading)) ==> OneCloser(s, Exec(s, Assign(t, reading)), t)
    ensures Enabled(s, Link(t)) ==> OneCloser(s, Exec(s, Link(t)), t)
  {
  }

  lemma MutatingBound(s: Memory)
    requires Inv(s) && s.owner.Some?
    ensures var p := s.PhaseOf(s.owner.value); p.Mutating? ==> p.done <= |p.change.mutation|
  {
  }

  lemma CopyStep(s: Memory, t: Thread, name: string, cell: Address)
    ensures Enabled(s, CopyEntry(t, name)) ==> OneCloser(s, Exec(s, CopyEntry(t, name)), t)
    ensures Enabled(s, CopyDevice(t, cell)) ==> OneCloser(s, Exec(s, CopyDevice(t, cell)), t)
  {
  }

  lemma LastSteps(s: Memory, t: Thread)
    ensures Enabled(s, Publish(t)) ==> OneCloser(s, Exec(s, Publish(t)), t)
    ensures Enabled(s, Unlock(t)) ==> OneCloser(s, Exec(s, Unlock(t)), t)
  {
  }

  lemma HolderIsInside(s: Memory)
    requires LockInv(s) && s.owner.Some?
    ensures !s.PhaseOf(s.owner.value).Idle? && !s.PhaseOf(s.owner.value).Waiting?
  {
  }

  lemma OwnStep(s: Memory, step: Step)
    requires Inv(s) && s.owner.Some? && Enabled(s, step) && !step.Load? && Mover(step) == s.owner.value
    ensures OneCloser(s, Exec(s, step), s.owner.value)
  {
    MutatingBound(s);
    HolderIsInside(s);
    hide Exec, OneCloser, BuildingInv, LoadsInv, LockInv, Memory.Show, Memory.Readable;
    match step
    case Allocate(t, next) => AllocateStep(s, t, next);
    case LoadCurrent(t) => LoadCurrentStep(s, t);
    case CopyEntry(t, name) => CopyStep(s, t, name, 0);
    case CopyDevice(t, cell) => CopyStep(s, t, "", cell);
    case Assign(t, reading) => MutatingStep(s, t, reading);
    case Link(t) => MutatingStep(s, t, 0);
    case Publish(t) => LastSteps(s, t);
    case Unlock(t) => LastSteps(s, t);
    case _ =>
  }

  lemma OtherStep(s: Memory, step: Step)
    requires Inv(s) && s.owner.Some? && Enabled(s, step) && (step.Load? || Mover(step) != s.owner.value)
    ensures Left(Exec(s, step), s.owner.value) == Left(s, s.owner.value) && Exec(s, step).owner == s.owner
  {
    hide MemoryInv, BuildingInv, LoadsInv, Memory.Show, Memory.Readable, Fold, Apply;
  }

  lemma InsideHasStepsLeft(s: Memory)
    requires Inv(s) && s.owner.Some?
    ensures Left(s, s.owner.value) > 0
  {
    MutatingBound(s);
    HolderIsInside(s);
    hide Inv;
  }

  /** A thread that holds the lock has steps left. */
  lemma HolderLeft(s: Memory, step: Step)
    requires Inv(s) && Enabled(s, step) && s.owner.Some?
    ensures Exec(s, step).owner.Some? ==> Left(Exec(s, step), Exec(s, step).owner.value) > 0
  {
    StepKeepsInv(s, step);
    hide Inv, Exec, Enabled, Left;
    if Exec(s, step).owner.Some? { InsideHasStepsLeft(Exec(s, step)); }
  }

  /**
   Every step of its own brings the lock holder exactly one step closer to releasing the lock, and no step
   of another thread sets it back: after Left steps of its own the lock is free.
   */
  lemma HolderGetsCloser(s: Memory, step: Step)
    requires Inv(s) && s.owner.Some? && Enabled(s, step)
    ensures var t, s' := s.owner.value, Exec(s, step);
            if !step.Load? && Mover(step) == t then
              && Left(s', t) == Left(s, t) - 1
              && if Left(s', t) == 0 then s'.owner.None? else s'.owner == s.owner
            else Left(s', t) == Left(s, t) && s'.owner == s.owner
  {
    hide LoadsInv, BuildingInv, Memory.Show, Memory.Readable, Fold, Apply;
    if !step.Load? && Mover(step) == s.owner.value {
      OwnStep(s, step);
      HolderLeft(s, step);
    } else {
      OtherStep(s, step);
    }
  }

  lemma CopierIsNeverStuck(s: Memory) returns (step: Step)
    requires Inv(s) && s.owner.Some? && s.PhaseOf(s.owner.value).Copying?
    ensures Enabled(s, step) && !step.Load? && Mover(step) == s.owner.value
  {
    var t := s.owner.value;
    var p := s.PhaseOf(t);
    if p.todo != {} {
      var name :| name in p.todo;
      step := CopyEntry(t, name);
    } else {
      var a := FreeAddress(s.records.Keys);
      assert s.snapshots[p.next] == s.CurrentNames();
      step := CopyDevice(t, a);
    }
  }

  /** In every reachable state the holder of the lock has a step to take. */
  lemma HolderIsNeverStuck(s: Memory) returns (step: Step)
    requires Inv(s) && s.owner.Some?
    ensures Enabled(s, step) && !step.Load? && Mover(step) == s.owner.value
  {
    hide LoadsInv, Memory.Show, Memory.Readable, Fold, Apply;
    var t := s.owner.value;
    match s.PhaseOf(t)
    case Entered(_) =>
      var a := FreeAddress(s.snapshots.Keys);
      step := Allocate(t, a);
    case Allocated(_, _) => step := LoadCurrent(t);
    case Copying(_, _, _) => step := CopierIsNeverStuck(s);
    case Mutating(change, _, _, done) =>
      var a := FreeAddress(s.readings.Keys);
      step := if done < |change.mutation| then Assign(t, a) else Link(t);
    case Linked(_, _, _) => step := Publish(t);
    case Stored(_) => step := Unlock(t);
  }
}
