/** The health check over one snapshot. */
module Health {
  import opened Wrappers
  import opened Homewizard
  import opened Snapshot

  /** time.Sub: the difference of two instants, clamped to a 64-bit duration. */
  function Sub(a: Instant, b: Instant): int {
    if a - b > MaxInt64 then MaxInt64 else if a - b < MinInt64 then MinInt64 else a - b
  }

  /** Duration.Truncate(time.Second), towards zero. */
  function WholeSeconds(d: int): int {
    if d >= 0 then d - d % 1_000_000_000 else -((-d) - (-d) % 1_000_000_000)
  }

  /** One line of the report: a device without fresh readings, and how old its last ones are. */
  datatype StaleDevice = StaleDevice(name: string, age: Option<int>)

  datatype HealthError = NoDevices | NoneFresh(staleAfter: int, stale: seq<StaleDevice>)

  function AgeOf(d: Device, now: Instant): Option<int> {
    if d.LastUpdate() == 0 then None else Some(WholeSeconds(Sub(now, d.LastUpdate())))
  }

  /** Some device of the snapshot has fresh readings. */
  predicate SomeFresh(v: View, now: Instant, staleAfter: int) {
    exists name | name in v :: v[name].Fresh(now, staleAfter)
  }

  /**
   Clamping the age to 64 bits, as the program does, never changes the verdict for a stale_after
   that is a 64-bit duration above the smallest one.
   */
  lemma FreshDespiteClamping(d: Device, now: Instant, staleAfter: int)
    requires MinInt64 < staleAfter <= MaxInt64
    ensures d.Fresh(now, staleAfter) <==> d.LastUpdate() != 0 && Sub(now, d.LastUpdate()) < staleAfter
  {
  }

  /** The age of the last reading in whole seconds, rounded down, as long as it fits a 64-bit duration. */
  lemma AgeMeans(d: Device, now: Instant)
    ensures AgeOf(d, now).None? <==> d.LastUpdate() == 0
    ensures d.LastUpdate() != 0 && 0 <= now - d.LastUpdate() <= MaxInt64 ==>
              && AgeOf(d, now).value % 1_000_000_000 == 0
              && AgeOf(d, now).value <= now - d.LastUpdate() < AgeOf(d, now).value + 1_000_000_000
  {
    hide Device.LastUpdate;
  }

  function StaleLine(d: Device, now: Instant): StaleDevice {
    StaleDevice(d.name, AgeOf(d, now))
  }

  /** What a health check must answer for a snapshot. */
  ghost predicate HealthAnswer(current: Option<View>, now: Instant, staleAfter: int, r: Result<(), HealthError>) {
    match current
    case None => r == Err(NoDevices)
    case Some(v) =>
      && (r == Err(NoDevices) <==> v == map[])
      && (r.Ok? <==> SomeFresh(v, now, staleAfter))
      && (r.Err? && r.error.NoneFresh? ==>
            && r.error.staleAfter == staleAfter
            && |r.error.stale| == |v|
            && forall i | 0 <= i < |v| :: r.error.stale[i] == StaleLine(SortedDevices(v)[i], now))
  }

  /** Counts the fresh devices and lists the others; as long as none is fresh, that is all of them, in order. */
  method Inspect(devices: seq<Device>, now: Instant, staleAfter: int)
    returns (reporting: nat, stale: seq<StaleDevice>)
    ensures reporting > 0 <==> exists j | 0 <= j < |devices| :: devices[j].Fresh(now, staleAfter)
    ensures reporting == 0 ==> |stale| == |devices|
    ensures reporting == 0 ==> forall j | 0 <= j < |devices| :: stale[j] == StaleLine(devices[j], now)
  {
    hide Device.LastUpdate, Device.Fresh, WholeSeconds, Sub;
    reporting, stale := 0, [];
    for i := 0 to |devices|
      invariant reporting > 0 <==> exists j | 0 <= j < i :: devices[j].Fresh(now, staleAfter)
      invariant reporting == 0 ==> |stale| == i && forall j | 0 <= j < i :: stale[j] == StaleLine(devices[j], now)
    {
      var device := devices[i];
      if device.Fresh(now, staleAfter) {
        reporting := reporting + 1;
        continue;
      }
      var last := device.ComputeLastUpdate();
      if last == 0 {
        stale := stale + [StaleDevice(device.name, None)];
      } else {
        stale := stale + [StaleDevice(device.name, Some(WholeSeconds(Sub(now, last))))];
      }
    }
  }

  lemma FreshInOrder(v: View, now: Instant, staleAfter: int)
    requires WellNamed(v)
    ensures SomeFresh(v, now, staleAfter) <==>
            exists j | 0 <= j < |SortedDevices(v)| :: SortedDevices(v)[j].Fresh(now, staleAfter)
  {
    SortedIsOrderedPermutation(v);
    hide SortedDevices;
    var devices := SortedDevices(v);
    if name :| name in v && v[name].Fresh(now, staleAfter) {
      var d := v[name];
      assert d.name in v && v[d.name] == d;
      assert d in devices;
    }
    if j :| 0 <= j < |devices| && devices[j].Fresh(now, staleAfter) {
      assert devices[j] in devices;
    }
  }

  /** Succeeds exactly when some device is fresh; otherwise reports every device, in name order. */
  method Healthz(current: Option<View>, now: Instant, staleAfter: int) returns (r: Result<(), HealthError>)
    requires current.Some? ==> WellNamed(current.value)
    ensures HealthAnswer(current, now, staleAfter, r)
  {
    hide SortedDevices, Device.LastUpdate, Device.Fresh, StaleLine;
    if current.None? || |current.value| == 0 {
      return Err(NoDevices);
    }
    var devices := Sorted(current.value);
    FreshInOrder(current.value, now, staleAfter);
    var reporting, stale := Inspect(devices, now, staleAfter);
    if reporting == 0 {
      return Err(NoneFresh(staleAfter, stale));
    }
    return Ok(());
  }
}
