/** Every series of a scrape, field by field: which field it carries, at which scale, under which labels. */
module CollectorFields {
  import opened Wrappers
  import opened Homewizard
  import opened Snapshot
  import opened Descriptors
  import opened Collector
  import opened CollectorFacts

  // ---- the table, with the record's own fields ----

  /** The series is of this device and kind, has these further labels, and carries exactly this value. */
  predicate Shows(d: Device, x: Series, kind: Kind, extra: Labels, value: real) {
    x.kind == kind && x.labels == [Label.Text(d.name)] + extra && x.value == value
  }

  predicate ShowsReading(d: Device, x: Series, kind: Kind, extra: Labels, value: Reading) {
    value.Some? && Shows(d, x, kind, extra, value.value)
  }

  predicate ShowsFlag(d: Device, x: Series, value: Option<bool>) {
    value.Some? && Shows(d, x, AsGauge, [], if value.value then 1.0 else 0.0)
  }

  predicate ShowsPhase(d: Device, x: Series, kind: Kind, values: Phases) {
    || ShowsReading(d, x, kind, [Label.Text("l1")], values[0])
    || ShowsReading(d, x, kind, [Label.Text("l2")], values[1])
    || ShowsReading(d, x, kind, [Label.Text("l3")], values[2])
  }

  predicate ShowsTariff(d: Device, x: Series, values: Tariffs) {
    || ShowsReading(d, x, AsCounter, [Label.Text("1")], values[0])
    || ShowsReading(d, x, AsCounter, [Label.Text("2")], values[1])
    || ShowsReading(d, x, AsCounter, [Label.Text("3")], values[2])
    || ShowsReading(d, x, AsCounter, [Label.Text("4")], values[3])
  }

  /** Whole seconds since 1970; nothing for the zero time. */
  predicate ShowsMoment(d: Device, x: Series, extra: Labels, at: Instant) {
    at != 0 && Shows(d, x, AsGauge, extra, (at / 1_000_000_000 - 62_135_596_800) as real)
  }

  predicate GaugeField(d: Device, x: Series, metric: GaugeMetric) {
    var m := d.measurement;
    match metric
    case ActivePower => ShowsReading(d, x, AsGauge, [], m.powerW)
    case ActiveVoltage => ShowsReading(d, x, AsGauge, [], m.voltageV)
    case ActiveCurrent => ShowsReading(d, x, AsGauge, [], m.currentA)
    case ActiveApparentPower => ShowsReading(d, x, AsGauge, [], m.apparentPowerVA)
    case ActiveReactivePower => ShowsReading(d, x, AsGauge, [], m.reactivePowerVAR)
    case ActiveApparentCurrent => ShowsReading(d, x, AsGauge, [], m.apparentCurrentA)
    case ActiveReactiveCurrent => ShowsReading(d, x, AsGauge, [], m.reactiveCurrentA)
    case ActivePowerFactor => ShowsReading(d, x, AsGauge, [], m.powerFactor)
    case Frequency => ShowsReading(d, x, AsGauge, [], m.frequencyHz)
    case ActiveTariff => ShowsReading(d, x, AsGauge, [], m.tariff)
    case AveragePower15m => ShowsReading(d, x, AsGauge, [], m.averagePower15mW)
    case MonthlyPowerPeak => ShowsReading(d, x, AsGauge, [], m.monthlyPowerPeakW)
    case ActiveWater => ShowsReading(d, x, AsGauge, [], m.activeWaterLPM)
  }

  predicate PhaseGaugeField(d: Device, x: Series, metric: PhaseGaugeMetric) {
    var m := d.measurement;
    match metric
    case PowerPhase => ShowsPhase(d, x, AsGauge, m.powerPhaseW)
    case VoltagePhase => ShowsPhase(d, x, AsGauge, m.voltagePhaseV)
    case CurrentPhase => ShowsPhase(d, x, AsGauge, m.currentPhaseA)
    case ApparentPowerPhase => ShowsPhase(d, x, AsGauge, m.apparentPowerPhaseVA)
    case ReactivePowerPhase => ShowsPhase(d, x, AsGauge, m.reactivePowerPhaseVA)
    case ApparentCurrentPhase => ShowsPhase(d, x, AsGauge, m.apparentCurrentPhaseA)
    case ReactiveCurrentPhase => ShowsPhase(d, x, AsGauge, m.reactiveCurrentPhaseA)
    case PowerFactorPhase => ShowsPhase(d, x, AsGauge, m.powerFactorPhase)
  }

  predicate CounterField(d: Device, x: Series, metric: CounterMetric) {
    var m := d.measurement;
    match metric
    case EnergyImport => ShowsReading(d, x, AsCounter, [], m.energyImportKWh)
    case EnergyExport => ShowsReading(d, x, AsCounter, [], m.energyExportKWh)
    case Water => ShowsReading(d, x, AsCounter, [], m.totalWaterM3)
    case BatteryCycles => ShowsReading(d, x, AsCounter, [], m.cycles)
    case PowerFailCount => ShowsReading(d, x, AsCounter, [], m.anyPowerFailCount)
    case LongPowerFailCount => ShowsReading(d, x, AsCounter, [], m.longPowerFailCount)
  }

  predicate PhaseCounterField(d: Device, x: Series, metric: PhaseCounterMetric) {
    match metric
    case VoltageSagCount => ShowsPhase(d, x, AsCounter, d.measurement.voltageSagPhaseCount)
    case VoltageSwellCount => ShowsPhase(d, x, AsCounter, d.measurement.voltageSwellPhaseCount)
  }

  predicate MeasurementField(d: Device, x: Series, metric: MeasurementMetric) {
    var m := d.measurement;
    match metric
    case EnergyImportTariff => ShowsTariff(d, x, m.energyImportTariffKWh)
    case EnergyExportTariff => ShowsTariff(d, x, m.energyExportTariffKWh)
    case BatteryStateOfCharge =>
      m.stateOfChargePct.Some? && Shows(d, x, AsGauge, [], m.stateOfChargePct.value / 100.0)
    case MeasurementTimestamp => ShowsMoment(d, x, [], m.timestamp)
    case MonthlyPeakTimestamp => ShowsMoment(d, x, [], m.monthlyPowerPeakAt)
    case SmartMeterInfo =>
      && (m.meterModel != "" || m.uniqueID != "" || m.protocolVersion.Some?)
      && Shows(d, x, AsGauge,
               [Label.Text(m.meterModel),
                if m.protocolVersion.Some? then Label.Number(m.protocolVersion.value) else Label.Text(""),
                Label.Text(m.uniqueID)],
               1.0)
    case WifiStrength => m.wifiStrengthPct.Some? && Shows(d, x, AsGauge, [], m.wifiStrengthPct.value / 100.0)
    case ExternalValue =>
      exists e | e in m.external ::
        Shows(d, x, AsGauge, [Label.Text(e.uniqueID), Label.Text(e.kind), Label.Text(e.unit)], e.value)
    case ExternalTimestamp =>
      exists e | e in m.external :: ShowsMoment(d, x, [Label.Text(e.uniqueID), Label.Text(e.kind)], e.timestamp)
  }

  predicate SystemField(d: Device, x: Series, metric: SystemMetric) {
    match metric
    case WifiRSSI => ShowsReading(d, x, AsGauge, [], d.system.wifiRSSIdB)
    case Uptime => ShowsReading(d, x, AsGauge, [], d.system.uptimeS)
    case CloudEnabled => ShowsFlag(d, x, d.system.cloudEnabled)
    case APIv1Enabled => ShowsFlag(d, x, d.system.apiv1Enabled)
    case LEDBrightness => d.system.ledBrightness.Some? && Shows(d, x, AsGauge, [], d.system.ledBrightness.value / 100.0)
  }

  predicate SocketField(d: Device, x: Series, metric: SocketMetric) {
    match metric
    case SocketPowerOn => ShowsFlag(d, x, d.state.powerOn)
    case SocketSwitchLock => ShowsFlag(d, x, d.state.switchLock)
    case SocketBrightness =>
      d.state.brightness.Some? && Shows(d, x, AsGauge, [], d.state.brightness.value as real / 255.0)
  }

  predicate BatteryField(d: Device, x: Series, metric: BatteryMetric) {
    match metric
    case BatteriesPower => ShowsReading(d, x, AsGauge, [], d.batteries.powerW)
    case BatteriesTarget => ShowsReading(d, x, AsGauge, [], d.batteries.targetPowerW)
    case BatteriesMaxConsumption => ShowsReading(d, x, AsGauge, [], d.batteries.maxConsumptionW)
    case BatteriesMaxProduction => ShowsReading(d, x, AsGauge, [], d.batteries.maxProductionW)
    case BatteriesCount => ShowsReading(d, x, AsGauge, [], d.batteries.batteryCount)
    case BatteriesChargeToFull => ShowsFlag(d, x, d.batteries.chargeToFull)
    case BatteriesMode => d.batteries.mode != "" && Shows(d, x, AsGauge, [Label.Text(d.batteries.mode)], 1.0)
    case BatteriesPermission =>
      exists permission | permission in d.batteries.permissions ::
        Shows(d, x, AsGauge, [Label.Text(permission)], 1.0)
  }

  /** The system section's network name, the measurement's when that has none; each only once it was read. */
  predicate ShowsNetwork(d: Device, x: Series) {
    var fromSystem := d.systemAt != 0 && d.system.wifiSSID.Some? && d.system.wifiSSID.value != "";
    || (fromSystem && Shows(d, x, AsGauge, [Label.Text(d.system.wifiSSID.value)], 1.0))
    || (!fromSystem && d.measuredAt != 0 && d.measurement.wifiSSID != ""
        && Shows(d, x, AsGauge, [Label.Text(d.measurement.wifiSSID)], 1.0))
  }

  predicate DeviceField(d: Device, now: Instant, staleAfter: int, x: Series, metric: DeviceMetric) {
    match metric
    case Up =>
      Shows(d, x, AsGauge, [], if d.LastUpdate() != 0 && now - d.LastUpdate() < staleAfter then 1.0 else 0.0)
    case DeviceInfo =>
      Shows(d, x, AsGauge,
            [Label.Text(d.info.productType), Label.Text(d.info.productName), Label.Text(d.info.serial),
             Label.Text(d.info.firmwareVersion), Label.Text(d.apiVersion), Label.Text(d.info.apiVersion)],
            1.0)
    case LastUpdate => ShowsMoment(d, x, [], d.LastUpdate())
    case WifiInfo => ShowsNetwork(d, x)
  }

  /** The section the metric belongs to has been read, and the series carries that very field. */
  predicate Carries(d: Device, now: Instant, staleAfter: int, x: Series) {
    match x.desc
    case DevicesTotal => false
    case OfDevice(metric) => DeviceField(d, now, staleAfter, x, metric)
    case Gauge(metric) => d.measuredAt != 0 && GaugeField(d, x, metric)
    case PhaseGauge(metric) => d.measuredAt != 0 && PhaseGaugeField(d, x, metric)
    case Counter(metric) => d.measuredAt != 0 && CounterField(d, x, metric)
    case PhaseCounter(metric) => d.measuredAt != 0 && PhaseCounterField(d, x, metric)
    case OfMeasurement(metric) => d.measuredAt != 0 && MeasurementField(d, x, metric)
    case OfSystem(metric) => d.systemAt != 0 && SystemField(d, x, metric)
    case OfSocket(metric) => d.stateAt != 0 && SocketField(d, x, metric)
    case OfBatteries(metric) => d.batteriesAt != 0 && BatteryField(d, x, metric)
  }

  // ---- the series of a device, by descriptor ----

  lemma OnlyAmongItsOwn(d: Device, list: seq<Single>, x: Series)
    requires forall i | 0 <= i < |list| :: list[i].desc != x.desc
    ensures !AmongSingles(d, list, x)
  {
  }

  /** Among gauges of different descriptors only the one with the series' own can have sent it. */
  lemma AmongByDesc(d: Device, list: seq<Single>, x: Series, k: nat)
    requires k < |list| && list[k].desc == x.desc
    requires forall i | 0 <= i < |list| && i != k :: list[i].desc != x.desc
    ensures AmongSingles(d, list, x) <==>
            list[k].value.Some? && Shows(d, x, AsGauge, list[k].extra, list[k].value.value)
  {
    var s := list[k];
    if s.value.Some? && Shows(d, x, AsGauge, s.extra, s.value.value) {
      assert x in OneSingle(d, s);
    }
  }

  lemma GaugeCarried(d: Device, x: Series)
    ensures GaugeReported(d, x) <==> x.desc.Gauge? && GaugeField(d, x, x.desc.gauge)
    ensures CounterReported(d, x) <==> x.desc.Counter? && CounterField(d, x, x.desc.counter)
  {
  }

  lemma PhaseCarried(d: Device, desc: Desc, kind: Kind, values: Phases, x: Series)
    requires x.desc == desc
    ensures PhaseReported(d, desc, kind, values, x) <==> ShowsPhase(d, x, kind, values)
  {
    assert PhaseNames[0] == "l1" && PhaseNames[1] == "l2" && PhaseNames[2] == "l3";
  }

  lemma PhasesCarried(d: Device, x: Series)
    ensures PhaseGaugeReported(d, x) <==> x.desc.PhaseGauge? && PhaseGaugeField(d, x, x.desc.phaseGauge)
    ensures PhaseCounterReported(d, x) <==> x.desc.PhaseCounter? && PhaseCounterField(d, x, x.desc.phaseCounter)
  {
    hide PhaseReported, ShowsPhase;
    if x.desc.PhaseGauge? {
      PhaseCarried(d, x.desc, AsGauge, PhaseGaugeValues(x.desc.phaseGauge, d.measurement), x);
    }
    if x.desc.PhaseCounter? {
      PhaseCarried(d, x.desc, AsCounter, PhaseCounterValues(x.desc.phaseCounter, d.measurement), x);
    }
  }

  lemma TariffCarried(d: Device, x: Series)
    ensures TariffReported(d, x) <==>
            || (x.desc == OfMeasurement(EnergyImportTariff) && ShowsTariff(d, x, d.measurement.energyImportTariffKWh))
            || (x.desc == OfMeasurement(EnergyExportTariff) && ShowsTariff(d, x, d.measurement.energyExportTariffKWh))
  {
    assert TariffNames[0] == "1" && TariffNames[1] == "2" && TariffNames[2] == "3" && TariffNames[3] == "4";
    assert TariffReported(d, x) <==>
      x in TariffPair(d, 0) || x in TariffPair(d, 1) || x in TariffPair(d, 2) || x in TariffPair(d, 3);
  }

  lemma OnePairCarried(d: Device, e: External, x: Series)
    ensures x in ExternalPair(d, e) <==>
            || (x.desc == OfMeasurement(ExternalValue)
                && Shows(d, x, AsGauge, [Label.Text(e.uniqueID), Label.Text(e.kind), Label.Text(e.unit)], e.value))
            || (x.desc == OfMeasurement(ExternalTimestamp)
                && ShowsMoment(d, x, [Label.Text(e.uniqueID), Label.Text(e.kind)], e.timestamp))
  {
    assert x in ExternalPair(d, e) <==> x == ExternalReading(d, e) || (e.timestamp != 0 && x == ExternalReported(d, e));
  }

  lemma MeterCarried(d: Device, x: Series)
    ensures MeterReported(d, x) <==>
            || (x.desc == OfMeasurement(ExternalValue) && MeasurementField(d, x, ExternalValue))
            || (x.desc == OfMeasurement(ExternalTimestamp) && MeasurementField(d, x, ExternalTimestamp))
  {
    var list := d.measurement.external;
    forall e
      ensures x in ExternalPair(d, e) <==>
              || (x.desc == OfMeasurement(ExternalValue)
                  && Shows(d, x, AsGauge, [Label.Text(e.uniqueID), Label.Text(e.kind), Label.Text(e.unit)], e.value))
              || (x.desc == OfMeasurement(ExternalTimestamp)
                  && ShowsMoment(d, x, [Label.Text(e.uniqueID), Label.Text(e.kind)], e.timestamp))
    {
      OnePairCarried(d, e, x);
    }
    hide ExternalPair, Shows, ShowsMoment;
    assert MeterReported(d, x) <==> exists e | e in list :: x in ExternalPair(d, e);
  }

  lemma MeasurementSinglesCarried(d: Device, x: Series)
    ensures AmongSingles(d, ReadingSingles(d), x) <==>
            && x.desc.OfMeasurement?
            && x.desc.measurement in {BatteryStateOfCharge, MeasurementTimestamp, MonthlyPeakTimestamp}
            && MeasurementField(d, x, x.desc.measurement)
    ensures AmongSingles(d, MeterSingles(d), x) <==>
            && x.desc.OfMeasurement? && x.desc.measurement in {SmartMeterInfo, WifiStrength}
            && MeasurementField(d, x, x.desc.measurement)
  {
    var readings, meter := ReadingSingles(d), MeterSingles(d);
    hide AmongSingles;
    match x.desc
    case OfMeasurement(BatteryStateOfCharge) =>
      AmongByDesc(d, readings, x, 0);
      OnlyAmongItsOwn(d, meter, x);
    case OfMeasurement(MeasurementTimestamp) =>
      AmongByDesc(d, readings, x, 1);
      OnlyAmongItsOwn(d, meter, x);
    case OfMeasurement(MonthlyPeakTimestamp) =>
      AmongByDesc(d, readings, x, 2);
      OnlyAmongItsOwn(d, meter, x);
    case OfMeasurement(SmartMeterInfo) =>
      OnlyAmongItsOwn(d, readings, x);
      AmongByDesc(d, meter, x, 0);
    case OfMeasurement(WifiStrength) =>
      OnlyAmongItsOwn(d, readings, x);
      AmongByDesc(d, meter, x, 1);
    case _ =>
      OnlyAmongItsOwn(d, readings, x);
      OnlyAmongItsOwn(d, meter, x);
  }

  lemma SystemCarried(d: Device, x: Series)
    ensures AmongSingles(d, SystemSingles(d), x) <==> x.desc.OfSystem? && SystemField(d, x, x.desc.system)
  {
    var list := SystemSingles(d);
    hide AmongSingles;
    match x.desc
    case OfSystem(WifiRSSI) => AmongByDesc(d, list, x, 0);
    case OfSystem(Uptime) => AmongByDesc(d, list, x, 1);
    case OfSystem(CloudEnabled) => AmongByDesc(d, list, x, 2);
    case OfSystem(APIv1Enabled) => AmongByDesc(d, list, x, 3);
    case OfSystem(LEDBrightness) => AmongByDesc(d, list, x, 4);
    case _ => OnlyAmongItsOwn(d, list, x);
  }

  lemma SocketCarried(d: Device, x: Series)
    ensures AmongSingles(d, SocketSingles(d), x) <==> x.desc.OfSocket? && SocketField(d, x, x.desc.socket)
  {
    var list := SocketSingles(d);
    hide AmongSingles;
    match x.desc
    case OfSocket(SocketPowerOn) => AmongByDesc(d, list, x, 0);
    case OfSocket(SocketSwitchLock) => AmongByDesc(d, list, x, 1);
    case OfSocket(SocketBrightness) => AmongByDesc(d, list, x, 2);
    case _ => OnlyAmongItsOwn(d, list, x);
  }

  lemma OnePermissionCarried(d: Device, permission: string, x: Series)
    ensures x == Permission(d, permission) <==>
            x.desc == OfBatteries(BatteriesPermission) && Shows(d, x, AsGauge, [Label.Text(permission)], 1.0)
  {
  }

  lemma PermissionCarried(d: Device, x: Series)
    ensures PermissionReported(d, x) <==>
            x.desc == OfBatteries(BatteriesPermission) && BatteryField(d, x, BatteriesPermission)
  {
    hide Shows;
    forall permission
      ensures x == Permission(d, permission) <==>
              x.desc == OfBatteries(BatteriesPermission) && Shows(d, x, AsGauge, [Label.Text(permission)], 1.0)
    {
      OnePermissionCarried(d, permission, x);
    }
    hide Permission;
    var list := d.batteries.permissions;
    assert PermissionReported(d, x) <==> exists permission | permission in list :: x == Permission(d, permission);
  }

  lemma BatterySinglesCarried(d: Device, x: Series)
    ensures AmongSingles(d, BatterySingles(d), x) <==>
            x.desc.OfBatteries? && !x.desc.batteries.BatteriesPermission? && BatteryField(d, x, x.desc.batteries)
  {
    var list := BatterySingles(d);
    hide AmongSingles;
    match x.desc
    case OfBatteries(BatteriesPower) => AmongByDesc(d, list, x, 0);
    case OfBatteries(BatteriesTarget) => AmongByDesc(d, list, x, 1);
    case OfBatteries(BatteriesMaxConsumption) => AmongByDesc(d, list, x, 2);
    case OfBatteries(BatteriesMaxProduction) => AmongByDesc(d, list, x, 3);
    case OfBatteries(BatteriesCount) => AmongByDesc(d, list, x, 4);
    case OfBatteries(BatteriesChargeToFull) => AmongByDesc(d, list, x, 5);
    case OfBatteries(BatteriesMode) => AmongByDesc(d, list, x, 6);
    case _ => OnlyAmongItsOwn(d, list, x);
  }

  lemma HeadCarried(d: Device, now: Instant, staleAfter: int, x: Series)
    ensures AmongSingles(d, HeadSingles(d, now, staleAfter), x) <==>
            x.desc.OfDevice? && !x.desc.device.WifiInfo? && DeviceField(d, now, staleAfter, x, x.desc.device)
    ensures AmongSingles(d, WifiSingles(d), x) <==>
            x.desc == OfDevice(WifiInfo) && DeviceField(d, now, staleAfter, x, WifiInfo)
  {
    var head, wifi := HeadSingles(d, now, staleAfter), WifiSingles(d);
    hide AmongSingles, Device.LastUpdate;
    match x.desc
    case OfDevice(Up) =>
      AmongByDesc(d, head, x, 0);
      OnlyAmongItsOwn(d, wifi, x);
    case OfDevice(DeviceInfo) =>
      AmongByDesc(d, head, x, 1);
      OnlyAmongItsOwn(d, wifi, x);
    case OfDevice(LastUpdate) =>
      AmongByDesc(d, head, x, 2);
      OnlyAmongItsOwn(d, wifi, x);
    case OfDevice(WifiInfo) =>
      OnlyAmongItsOwn(d, head, x);
      AmongByDesc(d, wifi, x, 0);
    case _ =>
      OnlyAmongItsOwn(d, head, x);
      OnlyAmongItsOwn(d, wifi, x);
  }

  lemma TariffFields(d: Device, x: Series)
    ensures MeasurementField(d, x, EnergyImportTariff) <==> ShowsTariff(d, x, d.measurement.energyImportTariffKWh)
    ensures MeasurementField(d, x, EnergyExportTariff) <==> ShowsTariff(d, x, d.measurement.energyExportTariffKWh)
  {
  }

  lemma MeasurementCarried(d: Device, x: Series)
    ensures MeasurementReports(d, x) <==>
            match x.desc
            case Gauge(metric) => GaugeField(d, x, metric)
            case PhaseGauge(metric) => PhaseGaugeField(d, x, metric)
            case Counter(metric) => CounterField(d, x, metric)
            case PhaseCounter(metric) => PhaseCounterField(d, x, metric)
            case OfMeasurement(metric) => MeasurementField(d, x, metric)
            case _ => false
  {
    TariffFields(d, x);
    hide GaugeReported, CounterReported, PhaseGaugeReported, PhaseCounterReported, TariffReported, MeterReported,
      AmongSingles, ReadingSingles, MeterSingles, GaugeField, CounterField, PhaseGaugeField, PhaseCounterField,
      MeasurementField, ShowsTariff;
    GaugeCarried(d, x);
    PhasesCarried(d, x);
    TariffCarried(d, x);
    MeterCarried(d, x);
    MeasurementSinglesCarried(d, x);
    if x.desc.OfMeasurement? {
      match x.desc.measurement
      case EnergyImportTariff =>
      case EnergyExportTariff =>
      case ExternalValue =>
      case ExternalTimestamp =>
      case metric => assert metric in {BatteryStateOfCharge, MeasurementTimestamp, MonthlyPeakTimestamp}
                         || metric in {SmartMeterInfo, WifiStrength};
    }
  }

  lemma DeviceCarries(d: Device, now: Instant, staleAfter: int, x: Series)
    ensures Reports(d, now, staleAfter, x) <==> Carries(d, now, staleAfter, x)
  {
    hide AmongSingles, MeasurementReports, PermissionReported, HeadSingles, SystemSingles, SocketSingles, WifiSingles,
      BatterySingles, DeviceField, GaugeField, CounterField, PhaseGaugeField, PhaseCounterField, MeasurementField,
      SystemField, SocketField, BatteryField;
    HeadCarried(d, now, staleAfter, x);
    MeasurementCarried(d, x);
    SystemCarried(d, x);
    SocketCarried(d, x);
    BatterySinglesCarried(d, x);
    PermissionCarried(d, x);
  }

  /**
   Field by field: a scrape contains the device count and, for every device, exactly the series whose section has
   been read and whose very field is present, with its value at the documented scale and its labels.
   */
  lemma CollectFieldByField(v: View, now: Instant, staleAfter: int, x: Series)
    requires WellNamed(v)
    ensures x in CollectSpec(Some(v), now, staleAfter) <==>
            || x == Series(DevicesTotal, AsGauge, [], |v| as real)
            || exists name | name in v :: Carries(v[name], now, staleAfter, x)
  {
    hide CollectSpec, Reports, Carries;
    CollectExactly(v, now, staleAfter, x);
    forall name | name in v ensures Reports(v[name], now, staleAfter, x) <==> Carries(v[name], now, staleAfter, x) {
      DeviceCarries(v[name], now, staleAfter, x);
    }
  }

  lemma FirstLabel(d: Device, now: Instant, staleAfter: int, x: Series)
    requires Carries(d, now, staleAfter, x)
    ensures x.labels != [] && x.labels[0] == Label.Text(d.name)
  {
    hide Device.LastUpdate;
  }

  /** The same for one known device and one descriptor: its name is the first label of what it carries. */
  lemma OneDeviceOneField(v: View, now: Instant, staleAfter: int, name: string, x: Series)
    requires WellNamed(v) && name in v && x.labels != [] && x.labels[0] == Label.Text(name)
    ensures x in CollectSpec(Some(v), now, staleAfter) <==> Carries(v[name], now, staleAfter, x)
  {
    hide CollectSpec, Carries;
    CollectFieldByField(v, now, staleAfter, x);
    forall other | other in v && Carries(v[other], now, staleAfter, x) ensures other == name {
      FirstLabel(v[other], now, staleAfter, x);
    }
  }
}
