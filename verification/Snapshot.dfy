/** The device record, the snapshot of all devices, and the copy-on-write store. */
module Snapshot {
  import opened Wrappers
  import opened Text
  import opened Homewizard

  /** One consistent view of one device; the four `...At` stamps are 0 until that section has been read. */
  datatype Device = Device(
    name: string,
    host: string,
    apiVersion: string,
    info: Info,
    caps: Capabilities,
    measurement: Measurement,
    system: System,
    state: State,
    batteries: Batteries,
    measuredAt: Instant,
    systemAt: Instant,
    stateAt: Instant,
    batteriesAt: Instant)
  {
    /** The most recent successful read of any kind. */
    function LastUpdate(): (last: Instant)
      ensures last in {measuredAt, systemAt, stateAt, batteriesAt}
      ensures measuredAt <= last && systemAt <= last && stateAt <= last && batteriesAt <= last
    {
      var a := if systemAt > measuredAt then systemAt else measuredAt;
      var b := if stateAt > a then stateAt else a;
      if batteriesAt > b then batteriesAt else b
    }

    method ComputeLastUpdate() returns (last: Instant)
      ensures last == LastUpdate()
    {
      last := measuredAt;
      var stamps := [systemAt, stateAt, batteriesAt];
      for i := 0 to |stamps|
        invariant measuredAt <= last && forall j | 0 <= j < i :: stamps[j] <= last
        invariant last == measuredAt || exists j | 0 <= j < i :: last == stamps[j]
      {
        if stamps[i] > last {
          last := stamps[i];
        }
      }
      assert stamps[0] <= last && stamps[1] <= last && stamps[2] <= last;
    }

    /** Whether the readings are recent enough to trust. */
    predicate Fresh(now: Instant, staleAfter: int) {
      LastUpdate() != 0 && now - LastUpdate() < staleAfter
    }
  }

  function NewDevice(name: string): Device {
    Device(name, "", "", EmptyInfo, NoCapabilities, EmptyMeasurement, EmptySystem, EmptyState, EmptyBatteries,
           0, 0, 0, 0)
  }

  // ---- mutators ----

  /** One assignment a mutator makes to the record it was given. */
  datatype Write =
    | SetHost(host: string)
    | SetInfo(info: Info)
    | SetCaps(caps: Capabilities)
    | SetAPIVersion(version: string)
    | SetMeasurement(measurement: Measurement)
    | SetMeasuredAt(at: Instant)
    | SetState(state: State)
    | SetStateAt(at: Instant)
    | SetSystem(system: System)
    | SetSystemAt(at: Instant)
    | SetBatteries(batteries: Batteries)
    | SetBatteriesAt(at: Instant)

  type Mutation = seq<Write>

  function ApplyWrite(d: Device, w: Write): Device {
    match w
    case SetHost(h) => d.(host := h)
    case SetInfo(i) => d.(info := i)
    case SetCaps(c) => d.(caps := c)
    case SetAPIVersion(v) => d.(apiVersion := v)
    case SetMeasurement(m) => d.(measurement := m)
    case SetMeasuredAt(at) => d.(measuredAt := at)
    case SetState(s) => d.(state := s)
    case SetStateAt(at) => d.(stateAt := at)
    case SetSystem(s) => d.(system := s)
    case SetSystemAt(at) => d.(systemAt := at)
    case SetBatteries(b) => d.(batteries := b)
    case SetBatteriesAt(at) => d.(batteriesAt := at)
  }

  /** A mutator is a sequence of assignments; none of them can rename the record. */
  function Apply(d: Device, m: Mutation): (r: Device)
    ensures r.name == d.name
  {
    if m == [] then d else ApplyWrite(Apply(d, m[..|m| - 1]), m[|m| - 1])
  }

  lemma ApplyTwo(d: Device, a: Write, b: Write)
    ensures Apply(d, [a]) == ApplyWrite(d, a)
    ensures Apply(d, [a, b]) == ApplyWrite(ApplyWrite(d, a), b)
  {
  }

  lemma ApplyFour(d: Device, a: Write, b: Write, c: Write, e: Write)
    ensures Apply(d, [a, b, c, e]) == ApplyWrite(ApplyWrite(ApplyWrite(ApplyWrite(d, a), b), c), e)
  {
    assert [a, b, c, e][..3] == [a, b, c] && [a, b, c][..2] == [a, b];
    ApplyTwo(d, a, b);
  }

  // ---- the sequential meaning of a history of updates ----

  /** What one snapshot says about every device. */
  type View = map<string, Device>

  datatype Change = Change(name: string, mutation: Mutation)

  function Previous(v: View, name: string): Device {
    if name in v then v[name] else NewDevice(name)
  }

  function After(v: View, u: Change): View {
    v[u.name := Apply(Previous(v, u.name), u.mutation)]
  }

  /** The view after a history of updates, each applied as a whole, one after the other. */
  function Fold(log: seq<Change>): View {
    if log == [] then map[] else After(Fold(log[..|log| - 1]), log[|log| - 1])
  }

  lemma FoldStep(log: seq<Change>, u: Change)
    ensures Fold(log + [u]) == After(Fold(log), u)
  {
    assert (log + [u])[..|log|] == log;
  }

  /** Every record is stored under its own name. */
  predicate WellNamed(v: View) {
    forall name | name in v :: v[name].name == name
  }

  lemma {:induction false} FoldWellNamed(log: seq<Change>)
    ensures WellNamed(Fold(log))
  {
    if log != [] { FoldWellNamed(log[..|log| - 1]); }
  }

  /** Updates of different devices commute. */
  lemma UpdatesCommute(v: View, a: Change, b: Change)
    requires a.name != b.name
    ensures After(After(v, a), b) == After(After(v, b), a)
  {
  }

  function Find(v: View, name: string): Option<Device> {
    if name in v then Some(v[name]) else None
  }

  /** The mutations of one device, in the order they happened. */
  function Own(log: seq<Change>, name: string): seq<Mutation> {
    if log == [] then []
    else
      var earlier, last := Own(log[..|log| - 1], name), log[|log| - 1];
      if last.name == name then earlier + [last.mutation] else earlier
  }

  /** The record those mutations build when nothing else happens. */
  function Replay(name: string, own: seq<Mutation>): Option<Device> {
    if own == [] then None
    else Some(Apply(Replay(name, own[..|own| - 1]).GetOr(NewDevice(name)), own[|own| - 1]))
  }

  lemma ReplayStep(name: string, own: seq<Mutation>, m: Mutation)
    ensures Replay(name, own + [m]) == Some(Apply(Replay(name, own).GetOr(NewDevice(name)), m))
  {
  }

  /** Whatever else was interleaved, a device's record depends on its own updates alone. */
  lemma {:induction false} RecordDependsOnOwnUpdates(log: seq<Change>, name: string)
    ensures Find(Fold(log), name) == Replay(name, Own(log, name))
  {
    if log != [] {
      var init, last := log[..|log| - 1], log[|log| - 1];
      RecordDependsOnOwnUpdates(init, name);
      if last.name == name {
        ReplayStep(name, Own(init, name), last.mutation);
      }
    }
  }

  /** Two interleavings of the same per-device histories leave the same view. */
  lemma InterleavingIsIrrelevant(log: seq<Change>, other: seq<Change>)
    requires forall name :: Own(log, name) == Own(other, name)
    ensures Fold(log) == Fold(other)
  {
    forall name ensures Find(Fold(log), name) == Find(Fold(other), name) {
      RecordDependsOnOwnUpdates(log, name);
      RecordDependsOnOwnUpdates(other, name);
    }
    assert forall name :: name in Fold(log) <==> Find(Fold(log), name).Some?;
    assert forall name :: name in Fold(other) <==> Find(Fold(other), name).Some?;
    forall name | name in Fold(log) ensures Fold(log)[name] == Fold(other)[name] {
      assert Find(Fold(log), name) == Find(Fold(other), name);
    }
  }

  // ---- name order ----

  predicate StrictlySorted(names: seq<string>) {
    forall i, j | 0 <= i < j < |names| :: Less(names[i], names[j])
  }

  predicate LeastIn(m: string, names: set<string>) {
    m in names && forall n | n in names :: n == m || Less(m, n)
  }

  lemma {:induction false} LeastExists(names: set<string>)
    requires names != {}
    ensures exists m :: LeastIn(m, names)
    decreases |names|
  {
    var n :| n in names;
    var rest := names - {n};
    if rest == {} {
      assert names == {n};
      assert LeastIn(n, names);
    } else {
      LeastExists(rest);
      var m :| LeastIn(m, rest);
      LessTotal(n, m);
      if Less(n, m) {
        forall k | k in names ensures k == n || Less(n, k) {
          if k != n && k != m { LessTransitive(n, m, k); }
        }
        assert LeastIn(n, names);
      } else {
        assert LeastIn(m, names);
      }
    }
  }

  lemma LeastUnique(a: string, b: string, names: set<string>)
    requires LeastIn(a, names) && LeastIn(b, names)
    ensures a == b
  {
    if a != b {
      LessTransitive(a, b, a);
      LessIrreflexive(a);
    }
  }

  /** slices.Sorted(maps.Keys(m)). */
  function SortedNames(names: set<string>): (r: seq<string>)
    ensures forall n :: n in r <==> n in names
    ensures StrictlySorted(r)
    ensures |r| == |names|
    decreases |names|
  {
    if names == {} then []
    else
      LeastExists(names);
      assert forall a, b | LeastIn(a, names) && LeastIn(b, names) :: a == b by {
        forall a, b | LeastIn(a, names) && LeastIn(b, names) ensures a == b { LeastUnique(a, b, names); }
      }
      var m :| m in names && LeastIn(m, names);
      [m] + SortedNames(names - {m})
  }

  /** The devices in name order. */
  function SortedDevices(v: View): (r: seq<Device>)
    ensures |r| == |v|
  {
    var names := SortedNames(v.Keys);
    seq(|names|, i requires 0 <= i < |names| => v[names[i]])
  }

  method Sorted(v: View) returns (devices: seq<Device>)
    ensures devices == SortedDevices(v)
  {
    var names := SortedNames(v.Keys);
    devices := [];
    for i := 0 to |names|
      invariant devices == SortedDevices(v)[..i]
    {
      devices := devices + [v[names[i]]];
    }
  }

  /** `Sorted` is a strictly name-ordered permutation of the map's values. */
  lemma SortedIsOrderedPermutation(v: View)
    requires WellNamed(v)
    ensures forall i, j | 0 <= i < j < |SortedDevices(v)| ::
              Less(SortedDevices(v)[i].name, SortedDevices(v)[j].name)
    ensures forall d :: d in SortedDevices(v) <==> d.name in v && v[d.name] == d
  {
    hide SortedNames, Less, LeastIn;
    var names := SortedNames(v.Keys);
    forall d ensures d in SortedDevices(v) <==> d.name in v && v[d.name] == d {
      if d.name in v && v[d.name] == d {
        var i :| 0 <= i < |names| && names[i] == d.name;
        assert SortedDevices(v)[i] == d;
      }
    }
  }

  // ---- the store, with Go's pointers ----

  /** The target of a *Device. */
  class DeviceCell {
    var value: Device
    constructor (d: Device)
      ensures value == d
    { value := d; }

    /** Runs a mutator on the private copy. */
    method Mutate(mutation: Mutation)
      modifies this
      ensures value == Apply(old(value), mutation)
    {
      hide ApplyWrite;
      for i := 0 to |mutation|
        invariant value == Apply(old(value), mutation[..i])
      {
        value := ApplyWrite(value, mutation[i]);
        assert mutation[..i + 1][..i] == mutation[..i];
      }
      assert mutation[..|mutation|] == mutation;
    }
  }

  /** The target of a *Snapshot. */
  class SnapshotCell {
    var devices: map<string, DeviceCell>
    constructor ()
      ensures devices == map[]
    { devices := map[]; }
  }

  class Store {
    var current: SnapshotCell?

    constructor ()
      ensures current == null && Contents() == map[]
    { current := null; }

    ghost function Cells(): set<object>
      reads this, current
    {
      if current == null then {} else {current} + set name | name in current.devices :: current.devices[name]
    }

    /** What a reader that loads the store now sees. */
    ghost function Contents(): View
      reads this, current, Cells()
    {
      if current == null then map[]
      else map name | name in current.devices :: current.devices[name].value
    }

    method Load() returns (s: SnapshotCell?)
      ensures s == current
    { s := current; }

    /** One device's current record, or none if it is not known. */
    method Lookup(name: string) returns (d: Option<Device>)
      ensures d == if name in Contents() then Some(Contents()[name]) else None
    {
      if current == null || name !in current.devices {
        d := None;
      } else {
        d := Some(current.devices[name].value);
      }
    }

    /** Only the pointer to the current snapshot changes: every cell published earlier stays as it was. */
    method Update(name: string, mutation: Mutation)
      modifies this
      ensures current != null && fresh(current) && name in current.devices && fresh(current.devices[name])
      ensures Contents() == After(old(Contents()), Change(name, mutation))
      ensures forall n | n in current.devices && n != name ::
                old(current) != null && n in old(current.devices) && current.devices[n] == old(current.devices[n])
    {
      hide Apply, ApplyWrite;
      var next := new SnapshotCell();
      if current != null {
        next.devices := current.devices;
      }
      var device := new DeviceCell(NewDevice(name));
      if name in next.devices {
        device := new DeviceCell(next.devices[name].value);
      }
      device.Mutate(mutation);
      next.devices := next.devices[name := device];
      current := next;
    }
  }
}
