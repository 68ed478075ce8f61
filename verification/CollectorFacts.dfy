/** Which series a scrape contains, and when two of them could carry the same name and labels. */
module CollectorFacts {
  import opened Wrappers
  import opened Lists
  import opened Text
  import opened Homewizard
  import opened Snapshot
  import opened Descriptors
  import opened Collector

  // ---- exactly the reported fields ----

  predicate AmongSingles(d: Device, list: seq<Single>, x: Series) {
    exists i | 0 <= i < |list| :: x in OneSingle(d, list[i])
  }

  predicate GaugeReported(d: Device, x: Series) {
    x.desc.Gauge? && var v := GaugeValue(x.desc.gauge, d.measurement);
    v.Some? && x == Of(d, x.desc, AsGauge, [], v.value)
  }

  predicate CounterReported(d: Device, x: Series) {
    x.desc.Counter? && var v := CounterValue(x.desc.counter, d.measurement);
    v.Some? && x == Of(d, x.desc, AsCounter, [], v.value)
  }

  /** One phase of a per-phase field. */
  predicate PhaseReported(d: Device, desc: Desc, kind: Kind, values: Phases, x: Series) {
    exists i | 0 <= i < 3 :: values[i].Some? && x == Of(d, desc, kind, [Text(PhaseNames[i])], values[i].value)
  }

  predicate PhaseGaugeReported(d: Device, x: Series) {
    x.desc.PhaseGauge? && PhaseReported(d, x.desc, AsGauge, PhaseGaugeValues(x.desc.phaseGauge, d.measurement), x)
  }

  predicate PhaseCounterReported(d: Device, x: Series) {
    x.desc.PhaseCounter?
    && PhaseReported(d, x.desc, AsCounter, PhaseCounterValues(x.desc.phaseCounter, d.measurement), x)
  }

  predicate TariffReported(d: Device, x: Series) {
    exists i: TariffIndex :: x in TariffPair(d, i)
  }

  predicate MeterReported(d: Device, x: Series) {
    exists i | 0 <= i < |d.measurement.external| :: x in ExternalPair(d, d.measurement.external[i])
  }

  predicate PermissionReported(d: Device, x: Series) {
    exists i | 0 <= i < |d.batteries.permissions| :: x == Permission(d, d.batteries.permissions[i])
  }

  /** A field of the measurement is present, and the series carries its value and labels. */
  predicate MeasurementReports(d: Device, x: Series) {
    || GaugeReported(d, x) || CounterReported(d, x) || PhaseGaugeReported(d, x) || PhaseCounterReported(d, x)
    || TariffReported(d, x) || AmongSingles(d, ReadingSingles(d), x) || AmongSingles(d, MeterSingles(d), x)
    || MeterReported(d, x)
  }

  /** A series appears because its section has been read and its field is reported; no order, no repetition. */
  predicate Reports(d: Device, now: Instant, staleAfter: int, x: Series) {
    || AmongSingles(d, HeadSingles(d, now, staleAfter), x)
    || (d.measuredAt != 0 && MeasurementReports(d, x))
    || (d.systemAt != 0 && AmongSingles(d, SystemSingles(d), x))
    || (d.stateAt != 0 && AmongSingles(d, SocketSingles(d), x))
    || (d.batteriesAt != 0 && (AmongSingles(d, BatterySingles(d), x) || PermissionReported(d, x)))
    || AmongSingles(d, WifiSingles(d), x)
  }

  lemma SinglesMember(d: Device, list: seq<Single>, x: Series)
    ensures x in SingleSeries(d, list) <==> AmongSingles(d, list, x)
  {
    hide OneSingle, FlatMap;
    FlatMapMember(SinglesOf(d), list, x);
  }

  lemma GaugeMember(d: Device, x: Series)
    ensures x in FlatMap(GaugesOf(d), MeasurementGauges) <==> GaugeReported(d, x)
  {
    hide FlatMap;
    FlatMapMember(GaugesOf(d), MeasurementGauges, x);
    if GaugeReported(d, x) {
      GaugeListed(x.desc.gauge);
      assert x in OneGauge(d, x.desc.gauge);
    }
  }

  lemma CounterMember(d: Device, x: Series)
    ensures x in FlatMap(CountersOf(d), MeasurementCounters) <==> CounterReported(d, x)
  {
    hide FlatMap;
    FlatMapMember(CountersOf(d), MeasurementCounters, x);
    if CounterReported(d, x) {
      CounterListed(x.desc.counter);
      assert x in OneCounter(d, x.desc.counter);
    }
  }

  lemma PhaseMember(d: Device, desc: Desc, kind: Kind, values: Phases, x: Series)
    ensures x in PhaseSeries(d, desc, kind, values) <==> PhaseReported(d, desc, kind, values, x)
  {
  }

  lemma OnePhaseMember(d: Device, g: PhaseGaugeMetric, c: PhaseCounterMetric, x: Series)
    ensures x in OnePhaseGauge(d, g) <==> x.desc == PhaseGauge(g) && PhaseGaugeReported(d, x)
    ensures x in OnePhaseCounter(d, c) <==> x.desc == PhaseCounter(c) && PhaseCounterReported(d, x)
  {
    hide PhaseSeries;
    PhaseMember(d, PhaseGauge(g), AsGauge, PhaseGaugeValues(g, d.measurement), x);
    PhaseMember(d, PhaseCounter(c), AsCounter, PhaseCounterValues(c, d.measurement), x);
  }

  lemma PhaseGaugeMember(d: Device, x: Series)
    ensures x in FlatMap(PhaseGaugesOf(d), MeasurementPhaseGauges) <==> PhaseGaugeReported(d, x)
  {
    hide FlatMap, OnePhaseGauge, PhaseReported;
    FlatMapMember(PhaseGaugesOf(d), MeasurementPhaseGauges, x);
    forall g ensures x in OnePhaseGauge(d, g) <==> x.desc == PhaseGauge(g) && PhaseGaugeReported(d, x) {
      OnePhaseMember(d, g, VoltageSagCount, x);
    }
    if PhaseGaugeReported(d, x) { PhaseGaugeListed(x.desc.phaseGauge); }
  }

  lemma PhaseCounterMember(d: Device, x: Series)
    ensures x in FlatMap(PhaseCountersOf(d), MeasurementPhaseCounters) <==> PhaseCounterReported(d, x)
  {
    hide FlatMap, OnePhaseCounter, PhaseReported;
    FlatMapMember(PhaseCountersOf(d), MeasurementPhaseCounters, x);
    forall c ensures x in OnePhaseCounter(d, c) <==> x.desc == PhaseCounter(c) && PhaseCounterReported(d, x) {
      OnePhaseMember(d, PowerPhase, c, x);
    }
    if PhaseCounterReported(d, x) { PhaseCounterListed(x.desc.phaseCounter); }
  }

  lemma TariffMember(d: Device, x: Series)
    ensures x in FlatMap(TariffsOf(d), TariffIndices) <==> TariffReported(d, x)
  {
    hide FlatMap, TariffPair;
    FlatMapMember(TariffsOf(d), TariffIndices, x);
    if i: TariffIndex :| x in TariffPair(d, i) {
      assert TariffIndices[i] == i;
      assert x in TariffsOf(d)(TariffIndices[i]);
    }
  }

  lemma TableMember(d: Device, x: Series)
    ensures x in TableSeries(d) <==>
            GaugeReported(d, x) || CounterReported(d, x) || PhaseGaugeReported(d, x) || PhaseCounterReported(d, x)
            || TariffReported(d, x)
  {
    hide *;
    TableSeriesParts(d);
    GaugeMember(d, x);
    CounterMember(d, x);
    PhaseGaugeMember(d, x);
    PhaseCounterMember(d, x);
    TariffMember(d, x);
  }

  lemma MeasurementMember(d: Device, x: Series)
    ensures x in MeasurementSeries(d) <==> MeasurementReports(d, x)
  {
    hide FlatMap, TableSeries, SingleSeries, GaugeReported, CounterReported, PhaseGaugeReported,
      PhaseCounterReported, TariffReported, AmongSingles, ReadingSingles, MeterSingles, ExternalPair;
    TableMember(d, x);
    SinglesMember(d, ReadingSingles(d), x);
    SinglesMember(d, MeterSingles(d), x);
    FlatMapMember(ExternalsOf(d), d.measurement.external, x);
  }

  lemma BatteriesMember(d: Device, x: Series)
    ensures x in BatteriesSeries(d) <==> AmongSingles(d, BatterySingles(d), x) || PermissionReported(d, x)
  {
    hide FlatMap, SingleSeries, AmongSingles, BatterySingles, Permission;
    SinglesMember(d, BatterySingles(d), x);
    FlatMapMember(PermissionsOf(d), d.batteries.permissions, x);
  }

  lemma DeviceParts(d: Device, now: Instant, staleAfter: int, x: Series)
    ensures x in DeviceSeries(d, now, staleAfter) <==>
            || x in SingleSeries(d, HeadSingles(d, now, staleAfter))
            || (d.measuredAt != 0 && x in MeasurementSeries(d))
            || (d.systemAt != 0 && x in SingleSeries(d, SystemSingles(d)))
            || (d.stateAt != 0 && x in SingleSeries(d, SocketSingles(d)))
            || (d.batteriesAt != 0 && x in BatteriesSeries(d))
            || x in SingleSeries(d, WifiSingles(d))
  {
  }

  lemma ReportsParts(d: Device, now: Instant, staleAfter: int, x: Series)
    ensures Reports(d, now, staleAfter, x) <==>
            || AmongSingles(d, HeadSingles(d, now, staleAfter), x)
            || (d.measuredAt != 0 && MeasurementReports(d, x))
            || (d.systemAt != 0 && AmongSingles(d, SystemSingles(d), x))
            || (d.stateAt != 0 && AmongSingles(d, SocketSingles(d), x))
            || (d.batteriesAt != 0 && (AmongSingles(d, BatterySingles(d), x) || PermissionReported(d, x)))
            || AmongSingles(d, WifiSingles(d), x)
  {
  }

  /** A device's series are exactly the reported fields of the sections that have been read. */
  lemma DeviceMember(d: Device, now: Instant, staleAfter: int, x: Series)
    ensures x in DeviceSeries(d, now, staleAfter) <==> Reports(d, now, staleAfter, x)
  {
    hide *;
    DeviceParts(d, now, staleAfter, x);
    ReportsParts(d, now, staleAfter, x);
    SinglesMember(d, HeadSingles(d, now, staleAfter), x);
    SinglesMember(d, SystemSingles(d), x);
    SinglesMember(d, SocketSingles(d), x);
    SinglesMember(d, WifiSingles(d), x);
    MeasurementMember(d, x);
    BatteriesMember(d, x);
  }

  lemma DevicesMember(devices: seq<Device>, now: Instant, staleAfter: int, x: Series)
    ensures x in DevicesSeries(devices, now, staleAfter) <==>
            exists i | 0 <= i < |devices| :: x in DeviceSeries(devices[i], now, staleAfter)
  {
    hide FlatMap, DeviceSeries;
    FlatMapMember(DevicesAt(now, staleAfter), devices, x);
  }

  /** The devices of a scrape are the records of the snapshot, each once. */
  lemma InSnapshot(v: View)
    requires WellNamed(v)
    ensures forall d | d in SortedDevices(v) :: d.name in v && v[d.name] == d
    ensures forall name | name in v :: v[name] in SortedDevices(v)
    ensures forall i, j | 0 <= i < j < |SortedDevices(v)| :: SortedDevices(v)[i].name != SortedDevices(v)[j].name
  {
    hide SortedDevices;
    SortedIsOrderedPermutation(v);
    var devices := SortedDevices(v);
    forall name | name in v ensures v[name] in devices {
      var d := v[name];
      assert d.name in v && v[d.name] == d;
    }
    forall i, j | 0 <= i < j < |devices| ensures devices[i].name != devices[j].name {
      LessIrreflexive(devices[i].name);
    }
  }

  /** A scrape contains the device count, the reported fields of every known device, and nothing else. */
  lemma CollectExactly(v: View, now: Instant, staleAfter: int, x: Series)
    requires WellNamed(v)
    ensures x in CollectSpec(Some(v), now, staleAfter) <==>
            || x == Series(DevicesTotal, AsGauge, [], |v| as real)
            || exists name | name in v :: Reports(v[name], now, staleAfter, x)
  {
    hide *;
    CollectSpecParts(v, now, staleAfter);
    var devices := SortedDevices(v);
    DevicesMember(devices, now, staleAfter, x);
    InSnapshot(v);
    if i :| 0 <= i < |devices| && x in DeviceSeries(devices[i], now, staleAfter) {
      DeviceMember(devices[i], now, staleAfter, x);
      assert devices[i] in devices;
      assert Reports(v[devices[i].name], now, staleAfter, x);
    }
    if name :| name in v && Reports(v[name], now, staleAfter, x) {
      DeviceMember(v[name], now, staleAfter, x);
      assert v[name] in devices;
      var i :| 0 <= i < |devices| && devices[i] == v[name];
    }
  }
}
