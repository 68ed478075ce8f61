/** What the dashboard shows for one snapshot. */
module Dashboard {
  import opened Wrappers
  import opened Homewizard
  import opened Snapshot
  import opened Health

  datatype DeviceStatus = NeverReported | StaleFor(age: int) | DeviceOk

  datatype Phase = Phase(name: string, watts: real)

  datatype Meter = Meter(kind: string, value: real, unit: string)

  datatype DeviceView = DeviceView(
    name: string, host: string, product: string, productType: string, serial: string, firmware: string, api: string,
    up: bool, status: DeviceStatus, updatedAt: Instant,
    watts: Reading, phases: seq<Phase>, importKWh: Reading, exportKWh: Reading,
    waterLPM: Reading, waterTotal: Reading, batteryPct: Reading, socketOn: Option<bool>,
    external: seq<Meter>, wifiSSID: string)

  datatype Totals = Totals(devices: nat, online: nat, watts: real, waterLPM: real, hasWater: bool)

  datatype Status = Waiting | NothingFresh | SomeMissing | AllOk

  datatype Page = Page(up: bool, status: Status, updatedAt: Instant, totals: Totals, devices: seq<DeviceView>)

  const ViewPhaseNames := ["L1", "L2", "L3"]

  function ProductName(d: Device): string {
    if d.info.productName != "" then d.info.productName
    else if d.info.productType != "" then d.info.productType
    else "unknown device"
  }

  /** The measurement's network name; the system section's when the measurement has none. */
  function ShownWifi(d: Device): string {
    if d.measurement.wifiSSID == "" then d.system.wifiSSID.GetOr("") else d.measurement.wifiSSID
  }

  /** The phases that report power, in order. */
  function PhasesShown(values: Phases, n: nat): seq<Phase>
    requires n <= 3
  {
    if n == 0 then []
    else
      PhasesShown(values, n - 1)
      + match values[n - 1] case None => [] case Some(w) => [Phase(ViewPhaseNames[n - 1], w)]
  }

  function MeterShown(e: External): Meter {
    Meter(e.kind, e.value, e.unit)
  }

  function MetersShown(list: seq<External>): (r: seq<Meter>)
    ensures |r| == |list|
  {
    seq(|list|, i requires 0 <= i < |list| => MeterShown(list[i]))
  }

  function StatusOf(d: Device, now: Instant, staleAfter: int): DeviceStatus {
    if d.LastUpdate() == 0 then NeverReported
    else if !d.Fresh(now, staleAfter) then StaleFor(WholeSeconds(Sub(now, d.LastUpdate())))
    else DeviceOk
  }

  function Described(d: Device, now: Instant, staleAfter: int): DeviceView {
    var m := d.measurement;
    DeviceView(d.name, d.host, ProductName(d), d.info.productType, d.info.serial, d.info.firmwareVersion, d.apiVersion,
               d.Fresh(now, staleAfter), StatusOf(d, now, staleAfter), d.LastUpdate(),
               m.powerW, PhasesShown(m.powerPhaseW, 3), m.energyImportKWh, m.energyExportKWh,
               m.activeWaterLPM, m.totalWaterM3, m.stateOfChargePct, d.state.powerOn,
               MetersShown(m.external), ShownWifi(d))
  }

  method Describe(d: Device, staleAfter: int, now: Instant) returns (item: DeviceView)
    ensures item == Described(d, now, staleAfter)
  {
    var m := d.measurement;
    var last := d.ComputeLastUpdate();
    item := DeviceView(d.name, d.host, ProductName(d), d.info.productType, d.info.serial, d.info.firmwareVersion,
                       d.apiVersion, d.Fresh(now, staleAfter), NeverReported, last,
                       m.powerW, [], m.energyImportKWh, m.energyExportKWh, m.activeWaterLPM, m.totalWaterM3,
                       m.stateOfChargePct, d.state.powerOn, [], m.wifiSSID);
    if d.system.wifiSSID.Some? && item.wifiSSID == "" {
      item := item.(wifiSSID := d.system.wifiSSID.value);
    }
    var phases: seq<Phase> := [];
    for i := 0 to 3
      invariant phases == PhasesShown(m.powerPhaseW, i)
    {
      if m.powerPhaseW[i].Some? {
        phases := phases + [Phase(ViewPhaseNames[i], m.powerPhaseW[i].value)];
      }
    }
    var external: seq<Meter> := [];
    for i := 0 to |m.external|
      invariant external == MetersShown(m.external)[..i]
    {
      external := external + [MeterShown(m.external[i])];
    }
    item := item.(phases := phases, external := external);
    if last == 0 {
      item := item.(status := NeverReported);
    } else if !item.up {
      item := item.(status := StaleFor(WholeSeconds(Sub(now, last))));
    } else {
      item := item.(status := DeviceOk);
    }
  }

  /** "never reported" means no stamp at all, "ok" means fresh, and a stale line says how stale. */
  lemma StatusMeans(d: Device, now: Instant, staleAfter: int)
    ensures var item := Described(d, now, staleAfter);
            && (item.status.NeverReported? <==> item.updatedAt == 0)
            && (item.status.DeviceOk? <==> item.up)
            && (item.status.StaleFor? <==> item.updatedAt != 0 && !item.up)
            && (item.status.StaleFor? && 0 <= now - item.updatedAt <= MaxInt64 ==>
                  item.status.age <= now - item.updatedAt < item.status.age + 1_000_000_000)
  {
    hide Device.LastUpdate;
  }

  lemma {:induction false} NamesOfPhases(values: Phases, n: nat)
    requires n <= 3
    ensures forall p :: p in PhasesShown(values, n) <==>
                        exists i | 0 <= i < n :: values[i] == Some(p.watts) && p.name == ViewPhaseNames[i]
    ensures forall i, j | 0 <= i < j < |PhasesShown(values, n)| ::
              PhasesShown(values, n)[i].name != PhasesShown(values, n)[j].name
  {
    assert ViewPhaseNames[0][1] == '1' && ViewPhaseNames[1][1] == '2' && ViewPhaseNames[2][1] == '3';
    if n > 0 {
      NamesOfPhases(values, n - 1);
      var shown := PhasesShown(values, n - 1);
      forall i | 0 <= i < |shown| ensures shown[i].name != ViewPhaseNames[n - 1] { assert shown[i] in shown; }
    }
  }

  /** A phase is shown exactly when it reports power, under its own name, and no phase twice. */
  lemma PhasesAreTheReported(values: Phases)
    ensures forall p :: p in PhasesShown(values, 3) <==>
                        exists i | 0 <= i < 3 :: values[i] == Some(p.watts) && p.name == ViewPhaseNames[i]
    ensures forall i, j | 0 <= i < j < |PhasesShown(values, 3)| ::
              PhasesShown(values, 3)[i].name != PhasesShown(values, 3)[j].name
  {
    NamesOfPhases(values, 3);
  }

  // ---- the household totals, device by device ----

  /** A fresh P1 meter counts with its power, any other device with nothing. */
  function WattsOf(d: Device, now: Instant, staleAfter: int): real {
    if d.Fresh(now, staleAfter) && d.info.productType == ProductP1 then d.measurement.powerW.GetOr(0.0) else 0.0
  }

  /** A fresh device that reports a flow counts with it. */
  function WaterOf(d: Device, now: Instant, staleAfter: int): real {
    if d.Fresh(now, staleAfter) then d.measurement.activeWaterLPM.GetOr(0.0) else 0.0
  }

  predicate HasWater(d: Device, now: Instant, staleAfter: int) {
    d.Fresh(now, staleAfter) && d.measurement.activeWaterLPM.Some?
  }

  lemma Smaller(v: View, name: string)
    requires name in v
    ensures |v - {name}| == |v| - 1
  {
  }

  /** The sum of some quantity over the devices of a snapshot, in whatever order they are taken. */
  ghost function Total(v: View, f: Device -> real): real
    decreases |v|
  {
    if v == map[] then 0.0
    else
      var name :| name in v;
      assert |v - {name}| < |v| by { assert v - {name} == map n | n in v && n != name :: v[n]; Smaller(v, name); }
      f(v[name]) + Total(v - {name}, f)
  }

  /** The total does not depend on the device taken first. */
  lemma {:induction false} TotalWithout(v: View, f: Device -> real, name: string)
    requires name in v
    ensures Total(v, f) == f(v[name]) + Total(v - {name}, f)
    decreases |v|
  {
    var first :| first in v && Total(v, f) == f(v[first]) + Total(v - {first}, f);
    if first != name {
      Smaller(v, first);
      Smaller(v, name);
      TotalWithout(v - {first}, f, name);
      TotalWithout(v - {name}, f, first);
      assert v - {first} - {name} == v - {name} - {first};
    }
  }

  ghost function FreshNames(v: View, now: Instant, staleAfter: int): set<string> {
    set name | name in v && v[name].Fresh(now, staleAfter)
  }

  ghost predicate AnyWater(v: View, now: Instant, staleAfter: int) {
    exists name | name in v :: HasWater(v[name], now, staleAfter)
  }

  /** The latest successful read of any device; 0, the zero time, if there was none. */
  ghost predicate IsLatest(v: View, at: Instant) {
    && at >= 0
    && (forall name | name in v :: v[name].LastUpdate() <= at)
    && (at == 0 || exists name | name in v :: v[name].LastUpdate() == at)
  }

  function WaterBy(now: Instant, staleAfter: int): Device -> real {
    (d: Device) => WaterOf(d, now, staleAfter)
  }

  function WattsBy(now: Instant, staleAfter: int): Device -> real {
    (d: Device) => WattsOf(d, now, staleAfter)
  }

  /** What the page must say about the household. */
  ghost predicate Summarises(v: View, now: Instant, staleAfter: int, page: Page) {
    && page.totals.devices == |v|
    && page.totals.online == |FreshNames(v, now, staleAfter)|
    && page.totals.watts == Total(v, WattsBy(now, staleAfter))
    && page.totals.waterLPM == Total(v, WaterBy(now, staleAfter))
    && (page.totals.hasWater <==> AnyWater(v, now, staleAfter))
    && IsLatest(v, page.updatedAt)
  }

  /** One line per device, in the order given. */
  function Lines(devices: seq<Device>, now: Instant, staleAfter: int): (r: seq<DeviceView>)
    ensures |r| == |devices|
  {
    seq(|devices|, i requires 0 <= i < |devices| => Described(devices[i], now, staleAfter))
  }

  ghost predicate StatusFits(page: Page) {
    && (page.status == Waiting <==> page.updatedAt == 0)
    && (page.status == NothingFresh <==> page.updatedAt != 0 && page.totals.online == 0)
    && (page.status == AllOk <==> page.updatedAt != 0 && page.totals.online == page.totals.devices != 0)
    && (page.up <==> page.status == AllOk || page.status == SomeMissing)
  }

  /** The devices already listed, by name. */
  ghost function Listed(devices: seq<Device>): View {
    if devices == [] then map[]
    else Listed(devices[..|devices| - 1])[devices[|devices| - 1].name := devices[|devices| - 1]]
  }

  lemma {:induction false} ListedContents(devices: seq<Device>)
    requires forall i, j | 0 <= i < j < |devices| :: devices[i].name != devices[j].name
    ensures forall d | d in devices :: d.name in Listed(devices) && Listed(devices)[d.name] == d
    ensures forall name | name in Listed(devices) ::
              Listed(devices)[name] in devices && Listed(devices)[name].name == name
  {
    if devices != [] {
      var init, last := devices[..|devices| - 1], devices[|devices| - 1];
      ListedContents(init);
      assert forall d | d in init :: d.name != last.name;
      assert devices == init + [last];
    }
  }

  lemma ListedStep(devices: seq<Device>, i: nat)
    requires i < |devices| && forall i, j | 0 <= i < j < |devices| :: devices[i].name != devices[j].name
    ensures Listed(devices[..i + 1]) == Listed(devices[..i])[devices[i].name := devices[i]]
    ensures devices[i].name !in Listed(devices[..i])
  {
    assert devices[..i + 1][..i] == devices[..i];
    ListedContents(devices[..i]);
  }

  lemma LinesStep(devices: seq<Device>, i: nat, now: Instant, staleAfter: int)
    requires i < |devices|
    ensures Lines(devices[..i + 1], now, staleAfter) ==
            Lines(devices[..i], now, staleAfter) + [Described(devices[i], now, staleAfter)]
  {
  }

  lemma ListedAll(v: View)
    requires WellNamed(v)
    ensures Listed(SortedDevices(v)) == v
    ensures forall i, j | 0 <= i < j < |SortedDevices(v)| :: SortedDevices(v)[i].name != SortedDevices(v)[j].name
  {
    hide SortedDevices;
    SortedIsOrderedPermutation(v);
    var devices := SortedDevices(v);
    forall i, j | 0 <= i < j < |devices| ensures devices[i].name != devices[j].name {
      Text.LessIrreflexive(devices[i].name);
    }
    ListedContents(devices);
    forall name | name in v ensures name in Listed(devices) && Listed(devices)[name] == v[name] {
      var d := v[name];
      assert d.name in v && v[d.name] == d;
      assert d in devices;
    }
  }

  lemma CountedIn(w: View, d: Device, f: Device -> real)
    requires d.name !in w
    ensures Total(w[d.name := d], f) == Total(w, f) + f(d)
    ensures |w[d.name := d]| == |w| + 1
  {
    hide Total;
    var w' := w[d.name := d];
    TotalWithout(w', f, d.name);
    Smaller(w', d.name);
    assert w' - {d.name} == w;
  }

  lemma CountedFresh(w: View, d: Device, now: Instant, staleAfter: int)
    requires d.name !in w
    ensures |FreshNames(w[d.name := d], now, staleAfter)| ==
            |FreshNames(w, now, staleAfter)| + if d.Fresh(now, staleAfter) then 1 else 0
  {
    hide Device.Fresh;
    var w', was := w[d.name := d], FreshNames(w, now, staleAfter);
    if d.Fresh(now, staleAfter) {
      assert FreshNames(w', now, staleAfter) == was + {d.name};
    } else {
      assert FreshNames(w', now, staleAfter) == was;
    }
  }

  lemma LaterOf(w: View, d: Device, at: Instant)
    requires d.name !in w && IsLatest(w, at)
    ensures IsLatest(w[d.name := d], if d.LastUpdate() > at then d.LastUpdate() else at)
  {
    hide Device.LastUpdate;
    var w' := w[d.name := d];
    assert w'[d.name] == d;
    if name :| name in w && w[name].LastUpdate() == at {
      assert w'[name].LastUpdate() == at;
    }
  }

  lemma AnyWaterOf(w: View, d: Device, now: Instant, staleAfter: int)
    requires d.name !in w
    ensures AnyWater(w[d.name := d], now, staleAfter) <==> AnyWater(w, now, staleAfter) || HasWater(d, now, staleAfter)
  {
    hide HasWater;
    var w' := w[d.name := d];
    assert w'[d.name] == d;
    if name :| name in w && HasWater(w[name], now, staleAfter) {
      assert HasWater(w'[name], now, staleAfter);
    }
  }

  /** What one device adds to the page. */
  predicate AddsUp(d: Device, now: Instant, staleAfter: int, page: Page, next: Page) {
    && next.totals.devices == page.totals.devices + 1
    && next.totals.online == page.totals.online + (if d.Fresh(now, staleAfter) then 1 else 0)
    && next.totals.watts == page.totals.watts + WattsOf(d, now, staleAfter)
    && next.totals.waterLPM == page.totals.waterLPM + WaterOf(d, now, staleAfter)
    && next.totals.hasWater == (page.totals.hasWater || HasWater(d, now, staleAfter))
    && next.updatedAt == (if d.LastUpdate() > page.updatedAt then d.LastUpdate() else page.updatedAt)
  }

  lemma ByMeaning(d: Device, now: Instant, staleAfter: int)
    ensures WattsBy(now, staleAfter)(d) == WattsOf(d, now, staleAfter)
    ensures WaterBy(now, staleAfter)(d) == WaterOf(d, now, staleAfter)
  {
  }

  /** One more device, seen through the loop's running totals. */
  lemma Accumulates(w: View, d: Device, now: Instant, staleAfter: int, page: Page, next: Page)
    requires d.name !in w && Summarises(w, now, staleAfter, page)
    requires AddsUp(d, now, staleAfter, page, next)
    ensures Summarises(w[d.name := d], now, staleAfter, next)
  {
    hide FreshNames, Total, WattsBy, WaterBy, AnyWater, IsLatest, Device.Fresh, Device.LastUpdate, WattsOf, WaterOf,
      HasWater;
    CountedIn(w, d, WattsBy(now, staleAfter));
    CountedIn(w, d, WaterBy(now, staleAfter));
    CountedFresh(w, d, now, staleAfter);
    LaterOf(w, d, page.updatedAt);
    AnyWaterOf(w, d, now, staleAfter);
    ByMeaning(d, now, staleAfter);
  }

  lemma DescribedAgain(d: Device, now: Instant, staleAfter: int)
    ensures var item := Described(d, now, staleAfter);
            && item.up == d.Fresh(now, staleAfter) && item.watts == d.measurement.powerW
            && item.waterLPM == d.measurement.activeWaterLPM
  {
  }

  /** The loop body: one more line, and its share of the totals. */
  method AddDevice(page: Page, device: Device, staleAfter: int, now: Instant) returns (next: Page)
    ensures AddsUp(device, now, staleAfter, page, next)
    ensures next.devices == page.devices + [Described(device, now, staleAfter)] && next.up == page.up
  {
    var item := Describe(device, staleAfter, now);
    DescribedAgain(device, now, staleAfter);
    hide Described, Device.Fresh, Device.LastUpdate;
    next := page.(devices := page.devices + [item]);
    var totals := page.totals.(devices := page.totals.devices + 1);
    if item.up {
      totals := totals.(online := totals.online + 1);
    }
    var last := device.ComputeLastUpdate();
    if last > next.updatedAt {
      next := next.(updatedAt := last);
    }
    if item.up && device.info.productType == ProductP1 && item.watts.Some? {
      totals := totals.(watts := totals.watts + item.watts.value);
    }
    if item.up && item.waterLPM.Some? {
      totals := totals.(waterLPM := totals.waterLPM + item.waterLPM.value, hasWater := true);
    }
    next := next.(totals := totals);
  }

  lemma NothingSummarised(now: Instant, staleAfter: int, page: Page)
    requires page.totals == Totals(0, 0, 0.0, 0.0, false) && page.updatedAt == 0
    ensures Summarises(Listed([]), now, staleAfter, page)
    ensures Lines([], now, staleAfter) == []
  {
  }

  lemma {:induction false} Within(a: set<string>, b: set<string>)
    requires a <= b
    ensures |a| <= |b|
  {
    assert b == a + (b - a);
  }

  lemma OnlineAtMostAll(v: View, now: Instant, staleAfter: int, page: Page)
    requires Summarises(v, now, staleAfter, page)
    ensures page.totals.online <= page.totals.devices == |v|
    ensures page.updatedAt >= 0 && (page.updatedAt != 0 ==> |v| > 0)
  {
    Within(FreshNames(v, now, staleAfter), v.Keys);
  }

  lemma SameSummary(v: View, now: Instant, staleAfter: int, page: Page, other: Page)
    requires Summarises(v, now, staleAfter, page)
    requires other.totals == page.totals && other.updatedAt == page.updatedAt
    ensures Summarises(v, now, staleAfter, other)
  {
  }

  /** The line under the title. */
  method Settle(page: Page) returns (r: Page)
    requires page.totals.online <= page.totals.devices && (page.updatedAt != 0 ==> page.totals.devices > 0)
    requires !page.up
    ensures r == page.(up := r.up, status := r.status) && StatusFits(r)
  {
    r := page;
    if page.updatedAt == 0 {
      r := r.(status := Waiting);
    } else if page.totals.online == 0 {
      r := r.(status := NothingFresh);
    } else if page.totals.online < page.totals.devices {
      r := r.(up := true, status := SomeMissing);
    } else {
      r := r.(up := true, status := AllOk);
    }
  }

  /** The loop over the devices. */
  method AddDevices(devices: seq<Device>, staleAfter: int, now: Instant, empty: Page) returns (page: Page)
    requires forall i, j | 0 <= i < j < |devices| :: devices[i].name != devices[j].name
    requires empty == Page(false, Waiting, 0, Totals(0, 0, 0.0, 0.0, false), [])
    ensures Summarises(Listed(devices), now, staleAfter, page) && !page.up
    ensures page.devices == Lines(devices, now, staleAfter)
  {
    page := empty;
    hide *;
    NothingSummarised(now, staleAfter, page);
    for i := 0 to |devices|
      invariant !page.up
      invariant Summarises(Listed(devices[..i]), now, staleAfter, page)
      invariant page.devices == Lines(devices[..i], now, staleAfter)
    {
      var device := devices[i];
      ListedStep(devices, i);
      LinesStep(devices, i, now, staleAfter);
      var next := AddDevice(page, device, staleAfter, now);
      Accumulates(Listed(devices[..i]), device, now, staleAfter, page, next);
      page := next;
    }
    assert devices[..|devices|] == devices;
  }

  method BuildView(current: Option<View>, staleAfter: int, now: Instant) returns (page: Page)
    requires current.Some? ==> WellNamed(current.value)
    ensures current.None? ==> page == Page(false, Waiting, 0, Totals(0, 0, 0.0, 0.0, false), [])
    ensures current.Some? ==> Summarises(current.value, now, staleAfter, page)
    ensures current.Some? ==> page.devices == Lines(SortedDevices(current.value), now, staleAfter)
    ensures StatusFits(page)
  {
    page := Page(false, Waiting, 0, Totals(0, 0, 0.0, 0.0, false), []);
    if current.None? {
      return;
    }
    var v := current.value;
    var devices := Sorted(v);
    hide *;
    ListedAll(v);
    page := AddDevices(devices, staleAfter, now, page);
    OnlineAtMostAll(v, now, staleAfter, page);
    ghost var summed := page;
    page := Settle(page);
    SameSummary(v, now, staleAfter, summed, page);
  }

  // ---- the household, from the records' own fields ----

  /** Devices for which a quantity is nothing can be left out of its total. */
  lemma {:induction false} TotalOfSome(v: View, some: View, f: Device -> real, g: Device -> real)
    requires some.Keys <= v.Keys && forall name | name in some :: some[name] == v[name] && f(v[name]) == g(v[name])
    requires forall name | name in v && name !in some :: f(v[name]) == 0.0
    ensures Total(v, f) == Total(some, g)
    decreases |v|
  {
    if v != map[] {
      var name :| name in v;
      Smaller(v, name);
      TotalWithout(v, f, name);
      if name in some {
        TotalWithout(some, g, name);
        TotalOfSome(v - {name}, some - {name}, f, g);
      } else {
        TotalOfSome(v - {name}, some, f, g);
      }
    } else {
      assert some == map[];
    }
  }

  function PowerOf(): Device -> real {
    (d: Device) => if d.measurement.powerW.Some? then d.measurement.powerW.value else 0.0
  }

  function FlowOf(): Device -> real {
    (d: Device) => if d.measurement.activeWaterLPM.Some? then d.measurement.activeWaterLPM.value else 0.0
  }

  /** The fresh P1 meters that report their power. */
  ghost function PowerMeters(v: View, now: Instant, staleAfter: int): View {
    map name | name in v && v[name].Fresh(now, staleAfter) && v[name].info.productType == "HWE-P1"
               && v[name].measurement.powerW.Some? :: v[name]
  }

  /** The fresh devices that report a water flow. */
  ghost function WaterMeters(v: View, now: Instant, staleAfter: int): View {
    map name | name in v && v[name].Fresh(now, staleAfter) && v[name].measurement.activeWaterLPM.Some? :: v[name]
  }

  /** Watts is the power of the fresh P1 meters and nothing else, the flow that of the fresh devices reporting one. */
  lemma HouseholdTotals(v: View, now: Instant, staleAfter: int, page: Page)
    requires Summarises(v, now, staleAfter, page)
    ensures page.totals.watts == Total(PowerMeters(v, now, staleAfter), PowerOf())
    ensures page.totals.waterLPM == Total(WaterMeters(v, now, staleAfter), FlowOf())
    ensures page.totals.hasWater <==> WaterMeters(v, now, staleAfter) != map[]
  {
    hide Total, Device.Fresh, Device.LastUpdate, FreshNames, IsLatest;
    TotalOfSome(v, PowerMeters(v, now, staleAfter), WattsBy(now, staleAfter), PowerOf());
    TotalOfSome(v, WaterMeters(v, now, staleAfter), WaterBy(now, staleAfter), FlowOf());
    if page.totals.hasWater {
      var name :| name in v && HasWater(v[name], now, staleAfter);
      assert name in WaterMeters(v, now, staleAfter);
    }
  }

  /** A line shows the record's own fields. */
  lemma DescribedFieldByField(d: Device, now: Instant, staleAfter: int)
    ensures var item, m := Described(d, now, staleAfter), d.measurement;
            && item.name == d.name && item.host == d.host && item.api == d.apiVersion
            && item.productType == d.info.productType && item.serial == d.info.serial
            && item.firmware == d.info.firmwareVersion
            && item.product == (if d.info.productName != "" then d.info.productName
                                else if d.info.productType != "" then d.info.productType else "unknown device")
            && item.updatedAt == d.LastUpdate()
            && (item.up <==> d.LastUpdate() != 0 && now - d.LastUpdate() < staleAfter)
            && item.watts == m.powerW && item.importKWh == m.energyImportKWh && item.exportKWh == m.energyExportKWh
            && item.waterLPM == m.activeWaterLPM && item.waterTotal == m.totalWaterM3
            && item.batteryPct == m.stateOfChargePct && item.socketOn == d.state.powerOn
            && item.wifiSSID == (if m.wifiSSID != "" then m.wifiSSID
                                 else if d.system.wifiSSID.Some? then d.system.wifiSSID.value else "")
            && |item.external| == |m.external|
            && forall i | 0 <= i < |m.external| ::
                 && item.external[i].kind == m.external[i].kind && item.external[i].value == m.external[i].value
                 && item.external[i].unit == m.external[i].unit
  {
    hide Device.LastUpdate, PhasesShown, StatusOf;
  }

  /** The phases by their printed names. */
  lemma PhaseNamesPrinted(values: Phases, p: Phase)
    ensures p in PhasesShown(values, 3) <==>
            || (values[0] == Some(p.watts) && p.name == "L1")
            || (values[1] == Some(p.watts) && p.name == "L2")
            || (values[2] == Some(p.watts) && p.name == "L3")
  {
    PhasesAreTheReported(values);
    assert ViewPhaseNames[0] == "L1" && ViewPhaseNames[1] == "L2" && ViewPhaseNames[2] == "L3";
    hide PhasesShown;
  }
}
