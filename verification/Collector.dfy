/** Turning a snapshot into series: what is sent, and in which order. */
module Collector {
  import opened Wrappers
  import opened Lists
  import opened Homewizard
  import opened Snapshot
  import opened Descriptors

  datatype Kind = AsGauge | AsCounter

  /** A label value: text, or a number printed by strconv.FormatFloat. */
  datatype Label = Text(text: string) | Number(number: real)

  type Labels = seq<Label>

  datatype Series = Series(desc: Desc, kind: Kind, labels: Labels, value: real)

  function UnixSeconds(t: Instant): real {
    (t / 1_000_000_000 - 62_135_596_800) as real
  }

  function BoolValue(b: bool): real {
    if b then 1.0 else 0.0
  }

  function FormatOptional(v: Reading): Label {
    match v case None => Text("") case Some(n) => Number(n)
  }

  function WifiSSID(d: Device): string {
    if d.systemAt != 0 && d.system.wifiSSID.Some? && d.system.wifiSSID.value != "" then d.system.wifiSSID.value
    else if d.measuredAt != 0 then d.measurement.wifiSSID
    else ""
  }

  /** A series of this device: the device name is its first label. */
  function Of(d: Device, desc: Desc, kind: Kind, extra: Labels, value: real): Series {
    Series(desc, kind, [Text(d.name)] + extra, value)
  }

  // ---- what is sent, in order ----

  function OptionalSeries(d: Device, desc: Desc, kind: Kind, value: Reading, extra: Labels): seq<Series> {
    match value case None => [] case Some(v) => [Of(d, desc, kind, extra, v)]
  }

  function PhaseSeries(d: Device, desc: Desc, kind: Kind, values: Phases): seq<Series> {
    OptionalSeries(d, desc, kind, values[0], [Text(PhaseNames[0])])
    + OptionalSeries(d, desc, kind, values[1], [Text(PhaseNames[1])])
    + OptionalSeries(d, desc, kind, values[2], [Text(PhaseNames[2])])
  }

  type TariffIndex = i: nat | i < 4

  const TariffIndices: seq<TariffIndex> := [0, 1, 2, 3]

  function TariffPair(d: Device, i: TariffIndex): seq<Series> {
    OptionalSeries(d, OfMeasurement(EnergyImportTariff), AsCounter, d.measurement.energyImportTariffKWh[i],
                   [Text(TariffNames[i])])
    + OptionalSeries(d, OfMeasurement(EnergyExportTariff), AsCounter, d.measurement.energyExportTariffKWh[i],
                     [Text(TariffNames[i])])
  }

  function ExternalReading(d: Device, e: External): Series {
    Of(d, OfMeasurement(ExternalValue), AsGauge, [Text(e.uniqueID), Text(e.kind), Text(e.unit)], e.value)
  }

  function ExternalReported(d: Device, e: External): Series {
    Of(d, OfMeasurement(ExternalTimestamp), AsGauge, [Text(e.uniqueID), Text(e.kind)], UnixSeconds(e.timestamp))
  }

  function ExternalPair(d: Device, e: External): seq<Series> {
    [ExternalReading(d, e)] + if e.timestamp != 0 then [ExternalReported(d, e)] else []
  }

  function Permission(d: Device, permission: string): Series {
    Of(d, OfBatteries(BatteriesPermission), AsGauge, [Text(permission)], 1.0)
  }

  function OneGauge(d: Device, g: GaugeMetric): seq<Series> {
    OptionalSeries(d, Gauge(g), AsGauge, GaugeValue(g, d.measurement), [])
  }

  function OneCounter(d: Device, c: CounterMetric): seq<Series> {
    OptionalSeries(d, Counter(c), AsCounter, CounterValue(c, d.measurement), [])
  }

  function OnePhaseGauge(d: Device, g: PhaseGaugeMetric): seq<Series> {
    PhaseSeries(d, PhaseGauge(g), AsGauge, PhaseGaugeValues(g, d.measurement))
  }

  function OnePhaseCounter(d: Device, c: PhaseCounterMetric): seq<Series> {
    PhaseSeries(d, PhaseCounter(c), AsCounter, PhaseCounterValues(c, d.measurement))
  }

  // What the loops send for one element of the list they run over.

  function GaugesOf(d: Device): GaugeMetric -> seq<Series> {
    (g: GaugeMetric) => OneGauge(d, g)
  }

  function CountersOf(d: Device): CounterMetric -> seq<Series> {
    (c: CounterMetric) => OneCounter(d, c)
  }

  function PhaseGaugesOf(d: Device): PhaseGaugeMetric -> seq<Series> {
    (g: PhaseGaugeMetric) => OnePhaseGauge(d, g)
  }

  function PhaseCountersOf(d: Device): PhaseCounterMetric -> seq<Series> {
    (c: PhaseCounterMetric) => OnePhaseCounter(d, c)
  }

  function TariffsOf(d: Device): TariffIndex -> seq<Series> {
    (i: TariffIndex) => TariffPair(d, i)
  }

  function ExternalsOf(d: Device): External -> seq<Series> {
    (e: External) => ExternalPair(d, e)
  }

  function PermissionsOf(d: Device): string -> seq<Series> {
    (permission: string) => [Permission(d, permission)]
  }

  /** A gauge that may be reported at most once per device. */
  datatype Single = Single(desc: Desc, value: Reading, extra: Labels)

  function Flag(v: Option<bool>): Reading {
    match v case None => None case Some(b) => Some(BoolValue(b))
  }

  function Ratio(v: Reading): Reading {
    match v case None => None case Some(n) => Some(n / 100.0)
  }

  /** An info metric, always 1 when there is something to say. */
  function Info(condition: bool): Reading {
    if condition then Some(1.0) else None
  }

  function Stamp(t: Instant): Reading {
    if t != 0 then Some(UnixSeconds(t)) else None
  }

  function HeadSingles(d: Device, now: Instant, staleAfter: int): seq<Single> {
    [Single(OfDevice(Up), Some(BoolValue(d.Fresh(now, staleAfter))), []),
     Single(OfDevice(DeviceInfo), Some(1.0),
            [Text(d.info.productType), Text(d.info.productName), Text(d.info.serial),
             Text(d.info.firmwareVersion), Text(d.apiVersion), Text(d.info.apiVersion)]),
     Single(OfDevice(LastUpdate), Stamp(d.LastUpdate()), [])]
  }

  function ReadingSingles(d: Device): seq<Single> {
    var m := d.measurement;
    [Single(OfMeasurement(BatteryStateOfCharge), Ratio(m.stateOfChargePct), []),
     Single(OfMeasurement(MeasurementTimestamp), Stamp(m.timestamp), []),
     Single(OfMeasurement(MonthlyPeakTimestamp), Stamp(m.monthlyPowerPeakAt), [])]
  }

  function MeterSingles(d: Device): seq<Single> {
    var m := d.measurement;
    [Single(OfMeasurement(SmartMeterInfo), Info(m.meterModel != "" || m.uniqueID != "" || m.protocolVersion.Some?),
            [Text(m.meterModel), FormatOptional(m.protocolVersion), Text(m.uniqueID)]),
     Single(OfMeasurement(WifiStrength), Ratio(m.wifiStrengthPct), [])]
  }

  function SystemSingles(d: Device): seq<Single> {
    var s := d.system;
    [Single(OfSystem(WifiRSSI), s.wifiRSSIdB, []),
     Single(OfSystem(Uptime), s.uptimeS, []),
     Single(OfSystem(CloudEnabled), Flag(s.cloudEnabled), []),
     Single(OfSystem(APIv1Enabled), Flag(s.apiv1Enabled), []),
     Single(OfSystem(LEDBrightness), Ratio(s.ledBrightness), [])]
  }

  function Brightness(v: Option<int>): Reading {
    match v case None => None case Some(n) => Some(n as real / 255.0)
  }

  function SocketSingles(d: Device): seq<Single> {
    [Single(OfSocket(SocketPowerOn), Flag(d.state.powerOn), []),
     Single(OfSocket(SocketSwitchLock), Flag(d.state.switchLock), []),
     Single(OfSocket(SocketBrightness), Brightness(d.state.brightness), [])]
  }

  function BatterySingles(d: Device): seq<Single> {
    var b := d.batteries;
    [Single(OfBatteries(BatteriesPower), b.powerW, []),
     Single(OfBatteries(BatteriesTarget), b.targetPowerW, []),
     Single(OfBatteries(BatteriesMaxConsumption), b.maxConsumptionW, []),
     Single(OfBatteries(BatteriesMaxProduction), b.maxProductionW, []),
     Single(OfBatteries(BatteriesCount), b.batteryCount, []),
     Single(OfBatteries(BatteriesChargeToFull), Flag(b.chargeToFull), []),
     Single(OfBatteries(BatteriesMode), Info(b.mode != ""), [Text(b.mode)])]
  }

  function WifiSingles(d: Device): seq<Single> {
    [Single(OfDevice(WifiInfo), Info(WifiSSID(d) != ""), [Text(WifiSSID(d))])]
  }

  function OneSingle(d: Device, s: Single): seq<Series> {
    OptionalSeries(d, s.desc, AsGauge, s.value, s.extra)
  }

  function SinglesOf(d: Device): Single -> seq<Series> {
    (s: Single) => OneSingle(d, s)
  }

  function SingleSeries(d: Device, list: seq<Single>): seq<Series> {
    FlatMap(SinglesOf(d), list)
  }

  function TableSeries(d: Device): seq<Series> {
    FlatMap(GaugesOf(d), MeasurementGauges) + FlatMap(CountersOf(d), MeasurementCounters)
    + FlatMap(PhaseGaugesOf(d), MeasurementPhaseGauges) + FlatMap(PhaseCountersOf(d), MeasurementPhaseCounters)
    + FlatMap(TariffsOf(d), TariffIndices)
  }

  function ExternalSeries(d: Device): seq<Series> {
    FlatMap(ExternalsOf(d), d.measurement.external)
  }

  function PermissionSeries(d: Device): seq<Series> {
    FlatMap(PermissionsOf(d), d.batteries.permissions)
  }

  function MeasurementSeries(d: Device): seq<Series> {
    TableSeries(d) + SingleSeries(d, ReadingSingles(d)) + SingleSeries(d, MeterSingles(d)) + ExternalSeries(d)
  }

  function BatteriesSeries(d: Device): seq<Series> {
    SingleSeries(d, BatterySingles(d)) + PermissionSeries(d)
  }

  function OrNothing(condition: bool, s: seq<Series>): seq<Series> {
    if condition then s else []
  }

  function DeviceSeries(d: Device, now: Instant, staleAfter: int): seq<Series> {
    SingleSeries(d, HeadSingles(d, now, staleAfter))
    + OrNothing(d.measuredAt != 0, MeasurementSeries(d))
    + OrNothing(d.systemAt != 0, SingleSeries(d, SystemSingles(d)))
    + OrNothing(d.stateAt != 0, SingleSeries(d, SocketSingles(d)))
    + OrNothing(d.batteriesAt != 0, BatteriesSeries(d))
    + SingleSeries(d, WifiSingles(d))
  }

  function DevicesAt(now: Instant, staleAfter: int): Device -> seq<Series> {
    (d: Device) => DeviceSeries(d, now, staleAfter)
  }

  function DevicesSeries(devices: seq<Device>, now: Instant, staleAfter: int): seq<Series> {
    FlatMap(DevicesAt(now, staleAfter), devices)
  }

  /** Everything one scrape sends; nothing before the first snapshot. */
  function CollectSpec(current: Option<View>, now: Instant, staleAfter: int): seq<Series> {
    match current
    case None => []
    case Some(v) =>
      [Series(DevicesTotal, AsGauge, [], |v| as real)] + DevicesSeries(SortedDevices(v), now, staleAfter)
  }

  // ---- the program's own form ----

  /** The list of gauges considered so far, with one more. */
  ghost function Noted(d: Device, start: seq<Series>, done: seq<Single>, s: Single): (r: seq<Single>)
    ensures r == done + [s]
    ensures start + SingleSeries(d, done) + OneSingle(d, s) == start + SingleSeries(d, r)
  {
    assert (done + [s])[..|done|] == done;
    done + [s]
  }

  lemma SinglesNone(d: Device)
    ensures SingleSeries(d, []) == []
  {
  }

  lemma TableSeriesParts(d: Device)
    ensures TableSeries(d) ==
            FlatMap(GaugesOf(d), MeasurementGauges) + FlatMap(CountersOf(d), MeasurementCounters)
            + FlatMap(PhaseGaugesOf(d), MeasurementPhaseGauges) + FlatMap(PhaseCountersOf(d), MeasurementPhaseCounters)
            + FlatMap(TariffsOf(d), TariffIndices)
  {
  }

  lemma CollectSpecParts(v: View, now: Instant, staleAfter: int)
    ensures CollectSpec(Some(v), now, staleAfter) ==
            [Series(DevicesTotal, AsGauge, [], |v| as real)] + DevicesSeries(SortedDevices(v), now, staleAfter)
    ensures CollectSpec(None, now, staleAfter) == []
  {
  }

  lemma Regroup<T>(s: seq<T>, a: seq<T>, b: seq<T>, c: seq<T>, d: seq<T>, e: seq<T>, f: seq<T>)
    ensures s + a + b + c + d + e + f == s + (a + b + c + d + e + f)
  {
  }

  /** The channel the metrics are sent to. */
  class Emitter {
    var sent: seq<Series>

    constructor ()
      ensures sent == []
    { sent := []; }

    method Plain(desc: Desc, kind: Kind, value: real, labels: Labels)
      modifies this
      ensures sent == old(sent) + [Series(desc, kind, labels, value)]
    {
      sent := sent + [Series(desc, kind, labels, value)];
    }

    method Send(d: Device, desc: Desc, value: real, extra: Labels)
      modifies this
      ensures sent == old(sent) + [Of(d, desc, AsGauge, extra, value)]
    {
      Plain(desc, AsGauge, value, [Text(d.name)] + extra);
    }

    method Optional(d: Device, desc: Desc, kind: Kind, value: Reading, extra: Labels)
      modifies this
      ensures sent == old(sent) + OptionalSeries(d, desc, kind, value, extra)
    {
      if value.None? {
        return;
      }
      Plain(desc, kind, value.value, [Text(d.name)] + extra);
    }

    method PerPhase(d: Device, desc: Desc, kind: Kind, values: Phases)
      modifies this
      ensures sent == old(sent) + PhaseSeries(d, desc, kind, values)
    {
      ghost var start := sent;
      for i := 0 to 3
        invariant i == 0 ==> sent == start
        invariant i == 1 ==> sent == start + OptionalSeries(d, desc, kind, values[0], [Text(PhaseNames[0])])
        invariant i == 2 ==> sent == start + (OptionalSeries(d, desc, kind, values[0], [Text(PhaseNames[0])])
                                              + OptionalSeries(d, desc, kind, values[1], [Text(PhaseNames[1])]))
        invariant i == 3 ==> sent == start + PhaseSeries(d, desc, kind, values)
      {
        Optional(d, desc, kind, values[i], [Text(PhaseNames[i])]);
      }
    }

    method CollectGauges(d: Device)
      modifies this
      ensures sent == old(sent) + FlatMap(GaugesOf(d), MeasurementGauges)
    {
      hide FlatMap, OptionalSeries, GaugeValue;
      FlatMapEnds(GaugesOf(d), MeasurementGauges);
      for i := 0 to |MeasurementGauges|
        invariant sent == old(sent) + FlatMap(GaugesOf(d), MeasurementGauges[..i])
      {
        FlatMapStep(GaugesOf(d), MeasurementGauges, i);
        var g := MeasurementGauges[i];
        Optional(d, Gauge(g), AsGauge, GaugeValue(g, d.measurement), []);
      }
    }

    method CollectCounters(d: Device)
      modifies this
      ensures sent == old(sent) + FlatMap(CountersOf(d), MeasurementCounters)
    {
      hide FlatMap, OptionalSeries, CounterValue;
      FlatMapEnds(CountersOf(d), MeasurementCounters);
      for i := 0 to |MeasurementCounters|
        invariant sent == old(sent) + FlatMap(CountersOf(d), MeasurementCounters[..i])
      {
        FlatMapStep(CountersOf(d), MeasurementCounters, i);
        var c := MeasurementCounters[i];
        Optional(d, Counter(c), AsCounter, CounterValue(c, d.measurement), []);
      }
    }

    method CollectPhaseGauges(d: Device)
      modifies this
      ensures sent == old(sent) + FlatMap(PhaseGaugesOf(d), MeasurementPhaseGauges)
    {
      hide FlatMap, PhaseSeries, PhaseGaugeValues;
      FlatMapEnds(PhaseGaugesOf(d), MeasurementPhaseGauges);
      for i := 0 to |MeasurementPhaseGauges|
        invariant sent == old(sent) + FlatMap(PhaseGaugesOf(d), MeasurementPhaseGauges[..i])
      {
        FlatMapStep(PhaseGaugesOf(d), MeasurementPhaseGauges, i);
        var g := MeasurementPhaseGauges[i];
        PerPhase(d, PhaseGauge(g), AsGauge, PhaseGaugeValues(g, d.measurement));
      }
    }

    method CollectPhaseCounters(d: Device)
      modifies this
      ensures sent == old(sent) + FlatMap(PhaseCountersOf(d), MeasurementPhaseCounters)
    {
      hide FlatMap, PhaseSeries, PhaseCounterValues;
      FlatMapEnds(PhaseCountersOf(d), MeasurementPhaseCounters);
      for i := 0 to |MeasurementPhaseCounters|
        invariant sent == old(sent) + FlatMap(PhaseCountersOf(d), MeasurementPhaseCounters[..i])
      {
        FlatMapStep(PhaseCountersOf(d), MeasurementPhaseCounters, i);
        var c := MeasurementPhaseCounters[i];
        PerPhase(d, PhaseCounter(c), AsCounter, PhaseCounterValues(c, d.measurement));
      }
    }

    method CollectTariffs(d: Device)
      modifies this
      ensures sent == old(sent) + FlatMap(TariffsOf(d), TariffIndices)
    {
      hide FlatMap, OptionalSeries;
      FlatMapEnds(TariffsOf(d), TariffIndices);
      for i := 0 to |TariffIndices|
        invariant sent == old(sent) + FlatMap(TariffsOf(d), TariffIndices[..i])
      {
        FlatMapStep(TariffsOf(d), TariffIndices, i);
        var tariff := TariffIndices[i];
        Optional(d, OfMeasurement(EnergyImportTariff), AsCounter, d.measurement.energyImportTariffKWh[tariff],
                 [Text(TariffNames[tariff])]);
        Optional(d, OfMeasurement(EnergyExportTariff), AsCounter, d.measurement.energyExportTariffKWh[tariff],
                 [Text(TariffNames[tariff])]);
      }
    }

    method CollectTables(d: Device)
      modifies this
      ensures sent == old(sent) + TableSeries(d)
    {
      hide *;
      ghost var s0 := sent;
      CollectGauges(d);
      CollectCounters(d);
      CollectPhaseGauges(d);
      CollectPhaseCounters(d);
      CollectTariffs(d);
      Regroup(s0, FlatMap(GaugesOf(d), MeasurementGauges), FlatMap(CountersOf(d), MeasurementCounters),
              FlatMap(PhaseGaugesOf(d), MeasurementPhaseGauges), FlatMap(PhaseCountersOf(d), MeasurementPhaseCounters),
              FlatMap(TariffsOf(d), TariffIndices), []);
      TableSeriesParts(d);
    }

    method CollectMeters(d: Device)
      modifies this
      ensures sent == old(sent) + ExternalSeries(d)
    {
      hide FlatMap;
      FlatMapEnds(ExternalsOf(d), d.measurement.external);
      for i := 0 to |d.measurement.external|
        invariant sent == old(sent) + FlatMap(ExternalsOf(d), d.measurement.external[..i])
      {
        FlatMapStep(ExternalsOf(d), d.measurement.external, i);
        var e := d.measurement.external[i];
        Send(d, OfMeasurement(ExternalValue), e.value, [Text(e.uniqueID), Text(e.kind), Text(e.unit)]);
        if e.timestamp != 0 {
          Send(d, OfMeasurement(ExternalTimestamp), UnixSeconds(e.timestamp), [Text(e.uniqueID), Text(e.kind)]);
        }
      }
    }

    method CollectMeasurement(d: Device)
      modifies this
      ensures sent == old(sent) + MeasurementSeries(d)
    {
      hide TableSeries, SingleSeries, ExternalSeries, ReadingSingles, MeterSingles;
      ghost var s0 := sent;
      CollectTables(d);
      CollectReadingSingles(d);
      CollectMeterSingles(d);
      CollectMeters(d);
      Regroup(s0, TableSeries(d), SingleSeries(d, ReadingSingles(d)), SingleSeries(d, MeterSingles(d)),
              ExternalSeries(d), [], []);
    }

    method CollectReadingSingles(d: Device)
      modifies this
      ensures sent == old(sent) + SingleSeries(d, ReadingSingles(d))
    {
      var m := d.measurement;
      ghost var start := sent;
      ghost var done: seq<Single> := [];
      hide SingleSeries;
      SinglesNone(d);
      if m.stateOfChargePct.Some? {
        Send(d, OfMeasurement(BatteryStateOfCharge), m.stateOfChargePct.value / 100.0, []);
      }
      done := Noted(d, start, done, ReadingSingles(d)[0]);
      assert sent == start + SingleSeries(d, done);
      if m.timestamp != 0 {
        Send(d, OfMeasurement(MeasurementTimestamp), UnixSeconds(m.timestamp), []);
      }
      done := Noted(d, start, done, ReadingSingles(d)[1]);
      assert sent == start + SingleSeries(d, done);
      if m.monthlyPowerPeakAt != 0 {
        Send(d, OfMeasurement(MonthlyPeakTimestamp), UnixSeconds(m.monthlyPowerPeakAt), []);
      }
      done := Noted(d, start, done, ReadingSingles(d)[2]);
      assert sent == start + SingleSeries(d, done);
      assert done == ReadingSingles(d);
    }

    method CollectMeterSingles(d: Device)
      modifies this
      ensures sent == old(sent) + SingleSeries(d, MeterSingles(d))
    {
      var m := d.measurement;
      ghost var start := sent;
      ghost var done: seq<Single> := [];
      hide SingleSeries;
      SinglesNone(d);
      if m.meterModel != "" || m.uniqueID != "" || m.protocolVersion.Some? {
        Send(d, OfMeasurement(SmartMeterInfo), 1.0,
             [Text(m.meterModel), FormatOptional(m.protocolVersion), Text(m.uniqueID)]);
      }
      done := Noted(d, start, done, MeterSingles(d)[0]);
      assert sent == start + SingleSeries(d, done);
      if m.wifiStrengthPct.Some? {
        Send(d, OfMeasurement(WifiStrength), m.wifiStrengthPct.value / 100.0, []);
      }
      done := Noted(d, start, done, MeterSingles(d)[1]);
      assert sent == start + SingleSeries(d, done);
      assert done == MeterSingles(d);
    }

    method CollectSystem(d: Device)
      modifies this
      ensures sent == old(sent) + SingleSeries(d, SystemSingles(d))
    {
      var s := d.system;
      ghost var start := sent;
      ghost var done: seq<Single> := [];
      hide SingleSeries;
      SinglesNone(d);
      Optional(d, OfSystem(WifiRSSI), AsGauge, s.wifiRSSIdB, []);
      done := Noted(d, start, done, SystemSingles(d)[0]);
      assert sent == start + SingleSeries(d, done);
      Optional(d, OfSystem(Uptime), AsGauge, s.uptimeS, []);
      done := Noted(d, start, done, SystemSingles(d)[1]);
      assert sent == start + SingleSeries(d, done);
      if s.cloudEnabled.Some? {
        Send(d, OfSystem(CloudEnabled), BoolValue(s.cloudEnabled.value), []);
      }
      done := Noted(d, start, done, SystemSingles(d)[2]);
      assert sent == start + SingleSeries(d, done);
      if s.apiv1Enabled.Some? {
        Send(d, OfSystem(APIv1Enabled), BoolValue(s.apiv1Enabled.value), []);
      }
      done := Noted(d, start, done, SystemSingles(d)[3]);
      assert sent == start + SingleSeries(d, done);
      if s.ledBrightness.Some? {
        Send(d, OfSystem(LEDBrightness), s.ledBrightness.value / 100.0, []);
      }
      done := Noted(d, start, done, SystemSingles(d)[4]);
      assert sent == start + SingleSeries(d, done);
      assert done == SystemSingles(d);
    }

    method CollectState(d: Device)
      modifies this
      ensures sent == old(sent) + SingleSeries(d, SocketSingles(d))
    {
      ghost var start := sent;
      ghost var done: seq<Single> := [];
      hide SingleSeries;
      SinglesNone(d);
      if d.state.powerOn.Some? {
        Send(d, OfSocket(SocketPowerOn), BoolValue(d.state.powerOn.value), []);
      }
      done := Noted(d, start, done, SocketSingles(d)[0]);
      assert sent == start + SingleSeries(d, done);
      if d.state.switchLock.Some? {
        Send(d, OfSocket(SocketSwitchLock), BoolValue(d.state.switchLock.value), []);
      }
      done := Noted(d, start, done, SocketSingles(d)[1]);
      assert sent == start + SingleSeries(d, done);
      if d.state.brightness.Some? {
        Send(d, OfSocket(SocketBrightness), d.state.brightness.value as real / 255.0, []);
      }
      done := Noted(d, start, done, SocketSingles(d)[2]);
      assert sent == start + SingleSeries(d, done);
      assert done == SocketSingles(d);
    }

    method CollectBatterySingles(d: Device)
      modifies this
      ensures sent == old(sent) + SingleSeries(d, BatterySingles(d))
    {
      var b := d.batteries;
      ghost var start := sent;
      ghost var done: seq<Single> := [];
      hide SingleSeries;
      SinglesNone(d);
      Optional(d, OfBatteries(BatteriesPower), AsGauge, b.powerW, []);
      done := Noted(d, start, done, BatterySingles(d)[0]);
      assert sent == start + SingleSeries(d, done);
      Optional(d, OfBatteries(BatteriesTarget), AsGauge, b.targetPowerW, []);
      done := Noted(d, start, done, BatterySingles(d)[1]);
      assert sent == start + SingleSeries(d, done);
      Optional(d, OfBatteries(BatteriesMaxConsumption), AsGauge, b.maxConsumptionW, []);
      done := Noted(d, start, done, BatterySingles(d)[2]);
      assert sent == start + SingleSeries(d, done);
      Optional(d, OfBatteries(BatteriesMaxProduction), AsGauge, b.maxProductionW, []);
      done := Noted(d, start, done, BatterySingles(d)[3]);
      assert sent == start + SingleSeries(d, done);
      Optional(d, OfBatteries(BatteriesCount), AsGauge, b.batteryCount, []);
      done := Noted(d, start, done, BatterySingles(d)[4]);
      assert sent == start + SingleSeries(d, done);
      if b.chargeToFull.Some? {
        Send(d, OfBatteries(BatteriesChargeToFull), BoolValue(b.chargeToFull.value), []);
      }
      done := Noted(d, start, done, BatterySingles(d)[5]);
      assert sent == start + SingleSeries(d, done);
      if b.mode != "" {
        Send(d, OfBatteries(BatteriesMode), 1.0, [Text(b.mode)]);
      }
      done := Noted(d, start, done, BatterySingles(d)[6]);
      assert sent == start + SingleSeries(d, done);
      assert done == BatterySingles(d);
    }

    method CollectPermissions(d: Device)
      modifies this
      ensures sent == old(sent) + PermissionSeries(d)
    {
      hide FlatMap;
      FlatMapEnds(PermissionsOf(d), d.batteries.permissions);
      for i := 0 to |d.batteries.permissions|
        invariant sent == old(sent) + FlatMap(PermissionsOf(d), d.batteries.permissions[..i])
      {
        FlatMapStep(PermissionsOf(d), d.batteries.permissions, i);
        Send(d, OfBatteries(BatteriesPermission), 1.0, [Text(d.batteries.permissions[i])]);
      }
    }

    method CollectBatteries(d: Device)
      modifies this
      ensures sent == old(sent) + BatteriesSeries(d)
    {
      CollectBatterySingles(d);
      CollectPermissions(d);
    }

    method CollectHead(d: Device, now: Instant, staleAfter: int)
      modifies this
      ensures sent == old(sent) + SingleSeries(d, HeadSingles(d, now, staleAfter))
    {
      ghost var start := sent;
      ghost var done: seq<Single> := [];
      hide SingleSeries;
      SinglesNone(d);
      Send(d, OfDevice(Up), BoolValue(d.Fresh(now, staleAfter)), []);
      done := Noted(d, start, done, HeadSingles(d, now, staleAfter)[0]);
      assert sent == start + SingleSeries(d, done);
      Send(d, OfDevice(DeviceInfo), 1.0,
           [Text(d.info.productType), Text(d.info.productName), Text(d.info.serial),
            Text(d.info.firmwareVersion), Text(d.apiVersion), Text(d.info.apiVersion)]);
      done := Noted(d, start, done, HeadSingles(d, now, staleAfter)[1]);
      assert sent == start + SingleSeries(d, done);
      var last := d.ComputeLastUpdate();
      if last != 0 {
        Send(d, OfDevice(LastUpdate), UnixSeconds(last), []);
      }
      done := Noted(d, start, done, HeadSingles(d, now, staleAfter)[2]);
      assert sent == start + SingleSeries(d, done);
      assert done == HeadSingles(d, now, staleAfter);
    }

    method CollectWifi(d: Device)
      modifies this
      ensures sent == old(sent) + SingleSeries(d, WifiSingles(d))
    {
      ghost var start := sent;
      ghost var done: seq<Single> := [];
      hide SingleSeries;
      SinglesNone(d);
      var ssid := WifiSSID(d);
      if ssid != "" {
        Send(d, OfDevice(WifiInfo), 1.0, [Text(ssid)]);
      }
      done := Noted(d, start, done, WifiSingles(d)[0]);
      assert sent == start + SingleSeries(d, done);
      assert done == WifiSingles(d);
    }

    method CollectDevice(d: Device, now: Instant, staleAfter: int)
      modifies this
      ensures sent == old(sent) + DeviceSeries(d, now, staleAfter)
    {
      hide SingleSeries, MeasurementSeries, BatteriesSeries, HeadSingles, SystemSingles, SocketSingles, WifiSingles;
      ghost var s0 := sent;
      CollectHead(d, now, staleAfter);
      if d.measuredAt != 0 {
        CollectMeasurement(d);
      }
      ghost var head, measured := SingleSeries(d, HeadSingles(d, now, staleAfter)),
                                  OrNothing(d.measuredAt != 0, MeasurementSeries(d));
      assert sent == s0 + head + measured;
      if d.systemAt != 0 {
        CollectSystem(d);
      }
      ghost var system := OrNothing(d.systemAt != 0, SingleSeries(d, SystemSingles(d)));
      assert sent == s0 + head + measured + system;
      if d.stateAt != 0 {
        CollectState(d);
      }
      ghost var state := OrNothing(d.stateAt != 0, SingleSeries(d, SocketSingles(d)));
      assert sent == s0 + head + measured + system + state;
      if d.batteriesAt != 0 {
        CollectBatteries(d);
      }
      ghost var batteries := OrNothing(d.batteriesAt != 0, BatteriesSeries(d));
      assert sent == s0 + head + measured + system + state + batteries;
      CollectWifi(d);
      Regroup(s0, head, measured, system, state, batteries, SingleSeries(d, WifiSingles(d)));
    }

    method CollectDevices(devices: seq<Device>, now: Instant, staleAfter: int)
      modifies this
      ensures sent == old(sent) + DevicesSeries(devices, now, staleAfter)
    {
      hide FlatMap, DeviceSeries;
      FlatMapEnds(DevicesAt(now, staleAfter), devices);
      for i := 0 to |devices|
        invariant sent == old(sent) + FlatMap(DevicesAt(now, staleAfter), devices[..i])
      {
        FlatMapStep(DevicesAt(now, staleAfter), devices, i);
        CollectDevice(devices[i], now, staleAfter);
      }
    }

    method Collect(current: Option<View>, now: Instant, staleAfter: int)
      modifies this
      ensures sent == old(sent) + CollectSpec(current, now, staleAfter)
    {
      hide *;
      if current.None? {
        CollectSpecParts(map[], now, staleAfter);
        return;
      }
      CollectSpecParts(current.value, now, staleAfter);
      var devices := Sorted(current.value);
      Plain(DevicesTotal, AsGauge, |devices| as real, []);
      CollectDevices(devices, now, staleAfter);
    }
  }
}
