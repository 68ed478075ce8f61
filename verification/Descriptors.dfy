/** The descriptors the exporter publishes, and the tables that pair them with fields of a measurement. */
module Descriptors {
  import opened Wrappers
  import opened Homewizard

  // One constructor per metric name, grouped by the section of the record it reads.

  datatype DeviceMetric =
    Up | DeviceInfo | LastUpdate | WifiInfo

  datatype MeasurementMetric =
    EnergyImportTariff | EnergyExportTariff | BatteryStateOfCharge | MeasurementTimestamp |
    MonthlyPeakTimestamp | SmartMeterInfo | WifiStrength | ExternalValue | ExternalTimestamp

  datatype SystemMetric =
    WifiRSSI | Uptime | CloudEnabled | APIv1Enabled | LEDBrightness

  datatype SocketMetric =
    SocketPowerOn | SocketSwitchLock | SocketBrightness

  datatype BatteryMetric =
    BatteriesPower | BatteriesTarget | BatteriesMaxConsumption | BatteriesMaxProduction | BatteriesCount |
    BatteriesChargeToFull | BatteriesMode | BatteriesPermission

  datatype GaugeMetric =
    ActivePower | ActiveVoltage | ActiveCurrent | ActiveApparentPower | ActiveReactivePower |
    ActiveApparentCurrent | ActiveReactiveCurrent | ActivePowerFactor | Frequency | ActiveTariff |
    AveragePower15m | MonthlyPowerPeak | ActiveWater

  datatype PhaseGaugeMetric =
    PowerPhase | VoltagePhase | CurrentPhase | ApparentPowerPhase | ReactivePowerPhase | ApparentCurrentPhase |
    ReactiveCurrentPhase | PowerFactorPhase

  datatype CounterMetric =
    EnergyImport | EnergyExport | Water | BatteryCycles | PowerFailCount | LongPowerFailCount

  datatype PhaseCounterMetric =
    VoltageSagCount | VoltageSwellCount

  datatype Desc =
    | DevicesTotal
    | OfDevice(device: DeviceMetric)
    | OfMeasurement(measurement: MeasurementMetric)
    | Gauge(gauge: GaugeMetric)
    | PhaseGauge(phaseGauge: PhaseGaugeMetric)
    | Counter(counter: CounterMetric)
    | PhaseCounter(phaseCounter: PhaseCounterMetric)
    | OfSystem(system: SystemMetric)
    | OfSocket(socket: SocketMetric)
    | OfBatteries(batteries: BatteryMetric)

  const MeasurementGauges: seq<GaugeMetric> := [
    ActivePower, ActiveVoltage, ActiveCurrent, ActiveApparentPower, ActiveReactivePower, ActiveApparentCurrent,
    ActiveReactiveCurrent, ActivePowerFactor, Frequency, ActiveTariff, AveragePower15m, MonthlyPowerPeak,
    ActiveWater]

  const MeasurementPhaseGauges: seq<PhaseGaugeMetric> := [
    PowerPhase, VoltagePhase, CurrentPhase, ApparentPowerPhase, ReactivePowerPhase, ApparentCurrentPhase,
    ReactiveCurrentPhase, PowerFactorPhase]

  const MeasurementCounters: seq<CounterMetric> := [
    EnergyImport, EnergyExport, Water, BatteryCycles, PowerFailCount, LongPowerFailCount]

  const MeasurementPhaseCounters: seq<PhaseCounterMetric> := [
    VoltageSagCount, VoltageSwellCount]

  function GaugeValue(metric: GaugeMetric, m: Measurement): Reading {
    match metric
    case ActivePower => m.powerW
    case ActiveVoltage => m.voltageV
    case ActiveCurrent => m.currentA
    case ActiveApparentPower => m.apparentPowerVA
    case ActiveReactivePower => m.reactivePowerVAR
    case ActiveApparentCurrent => m.apparentCurrentA
    case ActiveReactiveCurrent => m.reactiveCurrentA
    case ActivePowerFactor => m.powerFactor
    case Frequency => m.frequencyHz
    case ActiveTariff => m.tariff
    case AveragePower15m => m.averagePower15mW
    case MonthlyPowerPeak => m.monthlyPowerPeakW
    case ActiveWater => m.activeWaterLPM
  }

  function CounterValue(metric: CounterMetric, m: Measurement): Reading {
    match metric
    case EnergyImport => m.energyImportKWh
    case EnergyExport => m.energyExportKWh
    case Water => m.totalWaterM3
    case BatteryCycles => m.cycles
    case PowerFailCount => m.anyPowerFailCount
    case LongPowerFailCount => m.longPowerFailCount
  }

  function PhaseGaugeValues(metric: PhaseGaugeMetric, m: Measurement): Phases {
    match metric
    case PowerPhase => m.powerPhaseW
    case VoltagePhase => m.voltagePhaseV
    case CurrentPhase => m.currentPhaseA
    case ApparentPowerPhase => m.apparentPowerPhaseVA
    case ReactivePowerPhase => m.reactivePowerPhaseVA
    case ApparentCurrentPhase => m.apparentCurrentPhaseA
    case ReactiveCurrentPhase => m.reactiveCurrentPhaseA
    case PowerFactorPhase => m.powerFactorPhase
  }

  function PhaseCounterValues(metric: PhaseCounterMetric, m: Measurement): Phases {
    match metric
    case VoltageSagCount => m.voltageSagPhaseCount
    case VoltageSwellCount => m.voltageSwellPhaseCount
  }

  const PhaseNames := ["l1", "l2", "l3"]
  const TariffNames := ["1", "2", "3", "4"]

  /** The descriptors outside the tables, in the order they are announced. */
  const FixedDescs: seq<Desc> := [
    OfDevice(Up), OfDevice(DeviceInfo), OfMeasurement(SmartMeterInfo), OfDevice(WifiInfo), DevicesTotal,
    OfDevice(LastUpdate), OfMeasurement(MeasurementTimestamp), OfMeasurement(EnergyImportTariff),
    OfMeasurement(EnergyExportTariff), OfMeasurement(ExternalValue), OfMeasurement(ExternalTimestamp),
    OfSystem(WifiRSSI), OfMeasurement(WifiStrength), OfSystem(Uptime), OfSystem(CloudEnabled),
    OfSystem(LEDBrightness), OfSystem(APIv1Enabled), OfSocket(SocketPowerOn), OfSocket(SocketSwitchLock),
    OfSocket(SocketBrightness), OfBatteries(BatteriesPower), OfBatteries(BatteriesTarget),
    OfBatteries(BatteriesMaxConsumption), OfBatteries(BatteriesMaxProduction), OfBatteries(BatteriesCount),
    OfBatteries(BatteriesChargeToFull), OfBatteries(BatteriesMode), OfBatteries(BatteriesPermission),
    OfMeasurement(BatteryStateOfCharge), OfMeasurement(MonthlyPeakTimestamp)]

  function Map<A, B>(f: A -> B, s: seq<A>): (r: seq<B>)
    ensures |r| == |s|
    ensures forall i | 0 <= i < |s| :: r[i] == f(s[i])
  {
    seq(|s|, i requires 0 <= i < |s| => f(s[i]))
  }

  /** What Describe announces: the fixed descriptors, then the four tables. */
  function AllDescsSpec(): seq<Desc> {
    FixedDescs
    + Map((m: GaugeMetric) => Gauge(m), MeasurementGauges)
    + Map((m: PhaseGaugeMetric) => PhaseGauge(m), MeasurementPhaseGauges)
    + Map((m: CounterMetric) => Counter(m), MeasurementCounters)
    + Map((m: PhaseCounterMetric) => PhaseCounter(m), MeasurementPhaseCounters)
  }

  method Append<A>(descs: seq<Desc>, table: seq<A>, f: A -> Desc) returns (r: seq<Desc>)
    ensures r == descs + Map(f, table)
  {
    r := descs;
    for i := 0 to |table|
      invariant r == descs + Map(f, table)[..i]
    {
      r := r + [f(table[i])];
    }
  }

  method AllDescs() returns (descs: seq<Desc>)
    ensures descs == AllDescsSpec()
  {
    descs := FixedDescs;
    descs := Append(descs, MeasurementGauges, (m: GaugeMetric) => Gauge(m));
    descs := Append(descs, MeasurementPhaseGauges, (m: PhaseGaugeMetric) => PhaseGauge(m));
    descs := Append(descs, MeasurementCounters, (m: CounterMetric) => Counter(m));
    descs := Append(descs, MeasurementPhaseCounters, (m: PhaseCounterMetric) => PhaseCounter(m));
  }

  lemma OfDeviceAnnounced(m: DeviceMetric)
    ensures OfDevice(m) in FixedDescs
  {
  }

  lemma OfMeasurementAnnounced(m: MeasurementMetric)
    ensures OfMeasurement(m) in FixedDescs
  {
  }

  lemma OfSystemAnnounced(m: SystemMetric)
    ensures OfSystem(m) in FixedDescs
  {
  }

  lemma OfSocketAnnounced(m: SocketMetric)
    ensures OfSocket(m) in FixedDescs
  {
  }

  lemma OfBatteriesAnnounced(m: BatteryMetric)
    ensures OfBatteries(m) in FixedDescs
  {
  }

  lemma GaugeListed(m: GaugeMetric)
    ensures m in MeasurementGauges
  {
  }

  lemma PhaseGaugeListed(m: PhaseGaugeMetric)
    ensures m in MeasurementPhaseGauges
  {
  }

  lemma CounterListed(m: CounterMetric)
    ensures m in MeasurementCounters
  {
  }

  lemma PhaseCounterListed(m: PhaseCounterMetric)
    ensures m in MeasurementPhaseCounters
  {
  }

  /** Every descriptor a series can carry is announced. */
  lemma EveryDescAnnounced(desc: Desc)
    ensures desc in AllDescsSpec()
  {
    match desc
    case DevicesTotal => assert FixedDescs[4] == desc;
    case OfDevice(m) => OfDeviceAnnounced(m);
    case OfMeasurement(m) => OfMeasurementAnnounced(m);
    case OfSystem(m) => OfSystemAnnounced(m);
    case OfSocket(m) => OfSocketAnnounced(m);
    case OfBatteries(m) => OfBatteriesAnnounced(m);
    case Gauge(m) =>
      GaugeListed(m);
      var i :| 0 <= i < |MeasurementGauges| && MeasurementGauges[i] == m;
      assert Map((m: GaugeMetric) => Gauge(m), MeasurementGauges)[i] == desc;
    case PhaseGauge(m) =>
      PhaseGaugeListed(m);
      var i :| 0 <= i < |MeasurementPhaseGauges| && MeasurementPhaseGauges[i] == m;
      assert Map((m: PhaseGaugeMetric) => PhaseGauge(m), MeasurementPhaseGauges)[i] == desc;
    case Counter(m) =>
      CounterListed(m);
      var i :| 0 <= i < |MeasurementCounters| && MeasurementCounters[i] == m;
      assert Map((m: CounterMetric) => Counter(m), MeasurementCounters)[i] == desc;
    case PhaseCounter(m) =>
      PhaseCounterListed(m);
      var i :| 0 <= i < |MeasurementPhaseCounters| && MeasurementPhaseCounters[i] == m;
      assert Map((m: PhaseCounterMetric) => PhaseCounter(m), MeasurementPhaseCounters)[i] == desc;
  }

  predicate Distinct<A(==)>(s: seq<A>) {
    forall i, j | 0 <= i < j < |s| :: s[i] != s[j]
  }

  lemma DistinctTables()
    ensures Distinct(MeasurementGauges) && Distinct(MeasurementPhaseGauges)
    ensures Distinct(MeasurementCounters) && Distinct(MeasurementPhaseCounters)
  {
  }

  /** Which of the five parts of the announcement a descriptor belongs to. */
  function TableOf(d: Desc): nat {
    match d
    case Gauge(_) => 1
    case PhaseGauge(_) => 2
    case Counter(_) => 3
    case PhaseCounter(_) => 4
    case _ => 0
  }

  lemma DistinctFixed()
    ensures Distinct(FixedDescs)
  {
  }

  lemma FixedOutsideTables()
    ensures forall d | d in FixedDescs :: TableOf(d) == 0
  {
  }

  lemma DistinctAppend(a: seq<Desc>, b: seq<Desc>, n: nat)
    requires Distinct(a) && Distinct(b)
    requires (forall d | d in a :: TableOf(d) < n) && (forall d | d in b :: TableOf(d) == n)
    ensures Distinct(a + b)
    ensures forall d | d in a + b :: TableOf(d) < n + 1
  {
    var both := a + b;
    forall i, j | 0 <= i < j < |both| ensures both[i] != both[j] {
      if i < |a| {
        assert both[i] in a;
        if j >= |a| { assert both[j] in b; }
      }
    }
  }

  /** No descriptor is announced twice. */
  lemma AnnouncedOnce()
    ensures Distinct(AllDescsSpec())
  {
    DistinctTables();
    DistinctFixed();
    FixedOutsideTables();
    var gauges := Map((m: GaugeMetric) => Gauge(m), MeasurementGauges);
    var phaseGauges := Map((m: PhaseGaugeMetric) => PhaseGauge(m), MeasurementPhaseGauges);
    var counters := Map((m: CounterMetric) => Counter(m), MeasurementCounters);
    var phaseCounters := Map((m: PhaseCounterMetric) => PhaseCounter(m), MeasurementPhaseCounters);
    DistinctAppend(FixedDescs, gauges, 1);
    DistinctAppend(FixedDescs + gauges, phaseGauges, 2);
    DistinctAppend(FixedDescs + gauges + phaseGauges, counters, 3);
    DistinctAppend(FixedDescs + gauges + phaseGauges + counters, phaseCounters, 4);
    assert AllDescsSpec() == FixedDescs + gauges + phaseGauges + counters + phaseCounters;
  }
}
