/** When no two series of a scrape carry the same name and labels, which the registry would reject. */
module CollectorKeys {
  import opened Wrappers
  import opened Lists
  import opened Homewizard
  import opened Snapshot
  import opened Descriptors
  import opened Collector
  import opened CollectorFacts

  predicate SameKey(x: Series, y: Series) {
    x.desc == y.desc && x.labels == y.labels
  }

  predicate DistinctKeys(s: seq<Series>) {
    forall i, j | 0 <= i < j < |s| :: !SameKey(s[i], s[j])
  }

  predicate Apart(a: seq<Series>, b: seq<Series>) {
    forall x, y | x in a && y in b :: !SameKey(x, y)
  }

  lemma Split(a: seq<Series>, b: seq<Series>)
    ensures DistinctKeys(a + b) <==> DistinctKeys(a) && DistinctKeys(b) && Apart(a, b)
  {
    hide SameKey;
    var both := a + b;
    assert forall i | 0 <= i < |b| :: both[|a| + i] == b[i];
    assert forall i | 0 <= i < |a| :: both[i] == a[i];
    if DistinctKeys(both) {
      forall i, j | 0 <= i < j < |b| ensures !SameKey(b[i], b[j]) {
        assert !SameKey(both[|a| + i], both[|a| + j]);
      }
      forall x, y | x in a && y in b ensures !SameKey(x, y) {
        var i :| 0 <= i < |a| && a[i] == x;
        var j :| 0 <= j < |b| && b[j] == y;
        assert !SameKey(both[i], both[|a| + j]);
      }
    }
    if DistinctKeys(a) && DistinctKeys(b) && Apart(a, b) {
      forall i, j | 0 <= i < j < |both| ensures !SameKey(both[i], both[j]) {
        if i < |a| <= j {
          assert both[i] in a && both[j] in b;
        } else if |a| <= i {
          assert !SameKey(b[i - |a|], b[j - |a|]);
        }
      }
    }
  }

  lemma EachApart<A>(f: A -> seq<Series>, list: seq<A>, s: seq<Series>)
    ensures Apart(FlatMap(f, list), s) <==> forall i | 0 <= i < |list| :: Apart(f(list[i]), s)
  {
    hide SameKey, FlatMap;
    forall x ensures x in FlatMap(f, list) <==> exists i | 0 <= i < |list| :: x in f(list[i]) {
      FlatMapMember(f, list, x);
    }
  }

  lemma NothingCollides()
    ensures DistinctKeys([])
  {
  }

  /** What a loop sends is distinguishable exactly when each turn is in itself and no two turns collide. */
  lemma {:induction false} EachKeys<A>(f: A -> seq<Series>, list: seq<A>)
    ensures DistinctKeys(FlatMap(f, list)) <==>
            && (forall i | 0 <= i < |list| :: DistinctKeys(f(list[i])))
            && (forall i, j | 0 <= i < j < |list| :: Apart(f(list[i]), f(list[j])))
  {
    hide DistinctKeys, SameKey;
    if list == [] {
      NothingCollides();
    } else {
      var init, last := list[..|list| - 1], list[|list| - 1];
      EachKeys(f, init);
      Split(FlatMap(f, init), f(last));
      EachApart(f, init, f(last));
      assert forall i | 0 <= i < |init| :: init[i] == list[i];
    }
  }

  // ---- the two lists that decide ----

  /** Two external meters that would be reported under one name and one set of labels. */
  predicate MetersCollide(a: External, b: External) {
    a.uniqueID == b.uniqueID && a.kind == b.kind
    && (a.unit == b.unit || (a.timestamp != 0 && b.timestamp != 0))
  }

  predicate MetersDistinct(list: seq<External>) {
    forall i, j | 0 <= i < j < |list| :: !MetersCollide(list[i], list[j])
  }

  /** What a record must satisfy for its series to be distinguishable. */
  predicate CollisionFree(d: Device) {
    && (d.measuredAt != 0 ==> MetersDistinct(d.measurement.external))
    && (d.batteriesAt != 0 ==> Distinct(d.batteries.permissions))
  }

  lemma ExternalPairs(d: Device, a: External, b: External)
    ensures Apart(ExternalPair(d, a), ExternalPair(d, b)) <==> !MetersCollide(a, b)
    ensures DistinctKeys(ExternalPair(d, a))
  {
    var ra, rb, ta, tb := ExternalReading(d, a), ExternalReading(d, b), ExternalReported(d, a), ExternalReported(d, b);
    assert ExternalPair(d, a)[0] == ra && ExternalPair(d, b)[0] == rb;
    assert a.timestamp != 0 ==> ExternalPair(d, a)[1] == ta;
    assert b.timestamp != 0 ==> ExternalPair(d, b)[1] == tb;
    assert ra.labels[1..] == [Label.Text(a.uniqueID), Label.Text(a.kind), Label.Text(a.unit)];
    assert rb.labels[1..] == [Label.Text(b.uniqueID), Label.Text(b.kind), Label.Text(b.unit)];
    assert ta.labels[1..] == [Label.Text(a.uniqueID), Label.Text(a.kind)];
    assert tb.labels[1..] == [Label.Text(b.uniqueID), Label.Text(b.kind)];
    assert SameKey(ra, rb) <==> a.uniqueID == b.uniqueID && a.kind == b.kind && a.unit == b.unit by {
      assert ra.labels[1] == Label.Text(a.uniqueID) && rb.labels[1] == Label.Text(b.uniqueID);
      assert ra.labels[2] == Label.Text(a.kind) && rb.labels[2] == Label.Text(b.kind);
      assert ra.labels[3] == Label.Text(a.unit) && rb.labels[3] == Label.Text(b.unit);
    }
    assert SameKey(ta, tb) <==> a.uniqueID == b.uniqueID && a.kind == b.kind by {
      assert ta.labels[1] == Label.Text(a.uniqueID) && tb.labels[1] == Label.Text(b.uniqueID);
      assert ta.labels[2] == Label.Text(a.kind) && tb.labels[2] == Label.Text(b.kind);
    }
  }

  lemma ExternalKeys(d: Device)
    ensures DistinctKeys(ExternalSeries(d)) <==> MetersDistinct(d.measurement.external)
  {
    hide FlatMap, ExternalPair, MetersCollide, DistinctKeys, Apart;
    var list := d.measurement.external;
    EachKeys(ExternalsOf(d), list);
    forall a, b
      ensures DistinctKeys(ExternalPair(d, a))
      ensures Apart(ExternalPair(d, a), ExternalPair(d, b)) <==> !MetersCollide(a, b)
    {
      ExternalPairs(d, a, b);
    }
  }

  lemma PermissionKeys(d: Device)
    ensures DistinctKeys(PermissionSeries(d)) <==> Distinct(d.batteries.permissions)
  {
    hide FlatMap;
    EachKeys(PermissionsOf(d), d.batteries.permissions);
    forall a, b ensures Apart([Permission(d, a)], [Permission(d, b)]) <==> a != b {
      assert Permission(d, a).labels[1] == Label.Text(a) && Permission(d, b).labels[1] == Label.Text(b);
      assert Permission(d, a) in [Permission(d, a)] && Permission(d, b) in [Permission(d, b)];
    }
  }

  // ---- the tables and the single gauges never collide ----

  lemma GaugeKeys(d: Device)
    ensures DistinctKeys(FlatMap(GaugesOf(d), MeasurementGauges))
  {
    hide FlatMap;
    DistinctTables();
    EachKeys(GaugesOf(d), MeasurementGauges);
  }

  lemma CounterKeys(d: Device)
    ensures DistinctKeys(FlatMap(CountersOf(d), MeasurementCounters))
  {
    hide FlatMap;
    DistinctTables();
    EachKeys(CountersOf(d), MeasurementCounters);
  }

  lemma PhaseNamesDiffer()
    ensures Distinct(PhaseNames) && Distinct(TariffNames)
  {
  }

  lemma PhaseKeys(d: Device, desc: Desc, kind: Kind, values: Phases)
    ensures DistinctKeys(PhaseSeries(d, desc, kind, values))
    ensures forall x | x in PhaseSeries(d, desc, kind, values) :: x.desc == desc
  {
    var a, b, c := OptionalSeries(d, desc, kind, values[0], [Label.Text(PhaseNames[0])]),
                   OptionalSeries(d, desc, kind, values[1], [Label.Text(PhaseNames[1])]),
                   OptionalSeries(d, desc, kind, values[2], [Label.Text(PhaseNames[2])]);
    PhaseNamesDiffer();
    assert forall x | x in a :: x.labels[1] == Label.Text(PhaseNames[0]) && x.desc == desc;
    assert forall x | x in b :: x.labels[1] == Label.Text(PhaseNames[1]) && x.desc == desc;
    assert forall x | x in c :: x.labels[1] == Label.Text(PhaseNames[2]) && x.desc == desc;
    assert DistinctKeys(a) && DistinctKeys(b) && DistinctKeys(c);
    assert Apart(a, b) && Apart(a + b, c);
    hide OptionalSeries, Apart, DistinctKeys;
    Split(a, b);
    Split(a + b, c);
  }

  lemma PhaseGaugeKeys(d: Device)
    ensures DistinctKeys(FlatMap(PhaseGaugesOf(d), MeasurementPhaseGauges))
  {
    hide FlatMap, PhaseSeries, DistinctKeys;
    DistinctTables();
    EachKeys(PhaseGaugesOf(d), MeasurementPhaseGauges);
    forall g
      ensures DistinctKeys(OnePhaseGauge(d, g)) && forall x | x in OnePhaseGauge(d, g) :: x.desc == PhaseGauge(g)
    {
      PhaseKeys(d, PhaseGauge(g), AsGauge, PhaseGaugeValues(g, d.measurement));
    }
  }

  lemma PhaseCounterKeys(d: Device)
    ensures DistinctKeys(FlatMap(PhaseCountersOf(d), MeasurementPhaseCounters))
  {
    hide FlatMap, PhaseSeries, DistinctKeys;
    DistinctTables();
    EachKeys(PhaseCountersOf(d), MeasurementPhaseCounters);
    forall c
      ensures DistinctKeys(OnePhaseCounter(d, c)) && forall x | x in OnePhaseCounter(d, c) :: x.desc == PhaseCounter(c)
    {
      PhaseKeys(d, PhaseCounter(c), AsCounter, PhaseCounterValues(c, d.measurement));
    }
  }

  lemma TariffPairKeys(d: Device, i: TariffIndex)
    ensures DistinctKeys(TariffPair(d, i))
    ensures forall x | x in TariffPair(d, i) :: |x.labels| == 2 && x.labels[1] == Label.Text(TariffNames[i])
  {
  }

  lemma TariffKeys(d: Device)
    ensures DistinctKeys(FlatMap(TariffsOf(d), TariffIndices))
  {
    hide FlatMap, TariffPair, DistinctKeys;
    EachKeys(TariffsOf(d), TariffIndices);
    PhaseNamesDiffer();
    forall i: TariffIndex
      ensures DistinctKeys(TariffPair(d, i))
      ensures forall x | x in TariffPair(d, i) :: |x.labels| == 2 && x.labels[1] == Label.Text(TariffNames[i])
    {
      TariffPairKeys(d, i);
    }
    assert forall i | 0 <= i < 4 :: TariffIndices[i] == i;
  }

  predicate DistinctDescs(list: seq<Single>) {
    forall i, j | 0 <= i < j < |list| :: list[i].desc != list[j].desc
  }

  lemma SingleKeys(d: Device, list: seq<Single>)
    requires DistinctDescs(list)
    ensures DistinctKeys(SingleSeries(d, list))
  {
    hide FlatMap;
    EachKeys(SinglesOf(d), list);
  }

  // ---- one device ----

  /** Which stretch of a device's series a descriptor belongs to. */
  function Rank(desc: Desc): nat {
    match desc
    case OfDevice(m) => if m.WifiInfo? then 13 else 0
    case Gauge(_) => 1
    case Counter(_) => 2
    case PhaseGauge(_) => 3
    case PhaseCounter(_) => 4
    case OfMeasurement(m) =>
      if m.EnergyImportTariff? || m.EnergyExportTariff? then 5
      else if m.SmartMeterInfo? || m.WifiStrength? then 7
      else if m.ExternalValue? || m.ExternalTimestamp? then 8
      else 6
    case OfSystem(_) => 9
    case OfSocket(_) => 10
    case OfBatteries(m) => if m.BatteriesPermission? then 12 else 11
    case DevicesTotal => 14
  }

  predicate Ranked(s: seq<Series>, low: nat, high: nat) {
    forall x | x in s :: low <= Rank(x.desc) < high
  }

  /** Stretches of different ranks have nothing in common. */
  lemma Join(a: seq<Series>, b: seq<Series>, low: nat, mid: nat, high: nat)
    requires Ranked(a, low, mid) && Ranked(b, mid, high) && low <= mid <= high
    ensures Ranked(a + b, low, high)
    ensures DistinctKeys(a + b) <==> DistinctKeys(a) && DistinctKeys(b)
  {
    hide Rank, DistinctKeys;
    Split(a, b);
  }

  lemma SinglesRanked(d: Device, list: seq<Single>, rank: nat)
    requires forall i | 0 <= i < |list| :: Rank(list[i].desc) == rank
    requires DistinctDescs(list)
    ensures Ranked(SingleSeries(d, list), rank, rank + 1) && DistinctKeys(SingleSeries(d, list))
  {
    hide Rank;
    SingleKeys(d, list);
    forall x | x in SingleSeries(d, list) ensures Rank(x.desc) == rank { SinglesMember(d, list, x); }
  }

  lemma TableRanks(d: Device)
    ensures Ranked(FlatMap(GaugesOf(d), MeasurementGauges), 1, 2)
    ensures Ranked(FlatMap(CountersOf(d), MeasurementCounters), 2, 3)
    ensures Ranked(FlatMap(PhaseGaugesOf(d), MeasurementPhaseGauges), 3, 4)
    ensures Ranked(FlatMap(PhaseCountersOf(d), MeasurementPhaseCounters), 4, 5)
    ensures Ranked(FlatMap(TariffsOf(d), TariffIndices), 5, 6)
  {
    hide FlatMap, PhaseReported;
    forall x: Series
      ensures x in FlatMap(GaugesOf(d), MeasurementGauges) ==> Rank(x.desc) == 1
      ensures x in FlatMap(CountersOf(d), MeasurementCounters) ==> Rank(x.desc) == 2
      ensures x in FlatMap(PhaseGaugesOf(d), MeasurementPhaseGauges) ==> Rank(x.desc) == 3
      ensures x in FlatMap(PhaseCountersOf(d), MeasurementPhaseCounters) ==> Rank(x.desc) == 4
      ensures x in FlatMap(TariffsOf(d), TariffIndices) ==> Rank(x.desc) == 5
    {
      GaugeMember(d, x);
      CounterMember(d, x);
      PhaseGaugeMember(d, x);
      PhaseCounterMember(d, x);
      TariffMember(d, x);
    }
  }

  lemma TableKeys(d: Device)
    ensures DistinctKeys(TableSeries(d)) && Ranked(TableSeries(d), 1, 6)
  {
    var gauges, counters := FlatMap(GaugesOf(d), MeasurementGauges), FlatMap(CountersOf(d), MeasurementCounters);
    var phaseGauges := FlatMap(PhaseGaugesOf(d), MeasurementPhaseGauges);
    var phaseCounters := FlatMap(PhaseCountersOf(d), MeasurementPhaseCounters);
    var tariffs := FlatMap(TariffsOf(d), TariffIndices);
    TableRanks(d);
    hide *;
    TableSeriesParts(d);
    GaugeKeys(d);
    CounterKeys(d);
    PhaseGaugeKeys(d);
    PhaseCounterKeys(d);
    TariffKeys(d);
    Join(gauges, counters, 1, 2, 3);
    Join(gauges + counters, phaseGauges, 1, 3, 4);
    Join(gauges + counters + phaseGauges, phaseCounters, 1, 4, 5);
    Join(gauges + counters + phaseGauges + phaseCounters, tariffs, 1, 5, 6);
  }

  lemma ExternalRanked(d: Device)
    ensures Ranked(ExternalSeries(d), 8, 9)
    ensures Ranked(PermissionSeries(d), 12, 13)
  {
    hide FlatMap;
    forall x: Series
      ensures x in ExternalSeries(d) ==> Rank(x.desc) == 8
      ensures x in PermissionSeries(d) ==> Rank(x.desc) == 12
    {
      FlatMapMember(ExternalsOf(d), d.measurement.external, x);
      FlatMapMember(PermissionsOf(d), d.batteries.permissions, x);
    }
  }

  lemma MeasurementKeys(d: Device)
    ensures DistinctKeys(MeasurementSeries(d)) <==> MetersDistinct(d.measurement.external)
    ensures Ranked(MeasurementSeries(d), 1, 9)
  {
    hide TableSeries, SingleSeries, ExternalSeries, DistinctKeys, Ranked, MetersDistinct;
    TableKeys(d);
    SinglesRanked(d, ReadingSingles(d), 6);
    SinglesRanked(d, MeterSingles(d), 7);
    ExternalRanked(d);
    ExternalKeys(d);
    var readings, meter := SingleSeries(d, ReadingSingles(d)), SingleSeries(d, MeterSingles(d));
    Join(TableSeries(d), readings, 1, 6, 7);
    Join(TableSeries(d) + readings, meter, 1, 7, 8);
    Join(TableSeries(d) + readings + meter, ExternalSeries(d), 1, 8, 9);
  }

  lemma BatteriesKeys(d: Device)
    ensures DistinctKeys(BatteriesSeries(d)) <==> Distinct(d.batteries.permissions)
    ensures Ranked(BatteriesSeries(d), 11, 13)
  {
    hide SingleSeries, PermissionSeries, DistinctKeys, Ranked, Distinct;
    SinglesRanked(d, BatterySingles(d), 11);
    ExternalRanked(d);
    PermissionKeys(d);
    Join(SingleSeries(d, BatterySingles(d)), PermissionSeries(d), 11, 12, 13);
  }

  lemma Optional(condition: bool, s: seq<Series>, low: nat, high: nat)
    requires Ranked(s, low, high)
    ensures Ranked(OrNothing(condition, s), low, high)
    ensures DistinctKeys(OrNothing(condition, s)) <==> !condition || DistinctKeys(s)
  {
  }

  /** A device's series are distinguishable exactly when its meters and its permissions are. */
  lemma DeviceKeys(d: Device, now: Instant, staleAfter: int)
    ensures DistinctKeys(DeviceSeries(d, now, staleAfter)) <==> CollisionFree(d)
    ensures Ranked(DeviceSeries(d, now, staleAfter), 0, 14)
  {
    hide SingleSeries, MeasurementSeries, BatteriesSeries, OrNothing, DistinctKeys, Ranked, MetersDistinct, Distinct;
    SinglesRanked(d, HeadSingles(d, now, staleAfter), 0);
    SinglesRanked(d, SystemSingles(d), 9);
    SinglesRanked(d, SocketSingles(d), 10);
    SinglesRanked(d, WifiSingles(d), 13);
    MeasurementKeys(d);
    BatteriesKeys(d);
    Optional(d.measuredAt != 0, MeasurementSeries(d), 1, 9);
    Optional(d.systemAt != 0, SingleSeries(d, SystemSingles(d)), 9, 10);
    Optional(d.stateAt != 0, SingleSeries(d, SocketSingles(d)), 10, 11);
    Optional(d.batteriesAt != 0, BatteriesSeries(d), 11, 13);
    var head := SingleSeries(d, HeadSingles(d, now, staleAfter));
    var measured := OrNothing(d.measuredAt != 0, MeasurementSeries(d));
    var system := OrNothing(d.systemAt != 0, SingleSeries(d, SystemSingles(d)));
    var state := OrNothing(d.stateAt != 0, SingleSeries(d, SocketSingles(d)));
    var batteries := OrNothing(d.batteriesAt != 0, BatteriesSeries(d));
    Join(head, measured, 0, 1, 9);
    Join(head + measured, system, 0, 9, 10);
    Join(head + measured + system, state, 0, 10, 11);
    Join(head + measured + system + state, batteries, 0, 11, 13);
    Join(head + measured + system + state + batteries, SingleSeries(d, WifiSingles(d)), 0, 13, 14);
  }

  // ---- a whole scrape ----

  predicate Owned(x: Series, name: string) {
    |x.labels| > 0 && x.labels[0] == Label.Text(name)
  }

  /** Every series of a device carries its name as the first label. */
  lemma SeriesAreOwned(d: Device, now: Instant, staleAfter: int)
    ensures forall x | x in DeviceSeries(d, now, staleAfter) :: Owned(x, d.name)
  {
    hide DeviceSeries, HeadSingles, ReadingSingles, MeterSingles, SystemSingles, SocketSingles,
      BatterySingles, WifiSingles;
    forall x | x in DeviceSeries(d, now, staleAfter) ensures Owned(x, d.name) {
      DeviceMember(d, now, staleAfter, x);
    }
  }

  lemma DevicesKeys(devices: seq<Device>, now: Instant, staleAfter: int)
    requires forall i, j | 0 <= i < j < |devices| :: devices[i].name != devices[j].name
    ensures DistinctKeys(DevicesSeries(devices, now, staleAfter)) <==> forall d | d in devices :: CollisionFree(d)
    ensures forall x | x in DevicesSeries(devices, now, staleAfter) :: x.desc != DevicesTotal
  {
    hide FlatMap, DeviceSeries, CollisionFree, DistinctKeys;
    EachKeys(DevicesAt(now, staleAfter), devices);
    forall d: Device
      ensures DistinctKeys(DeviceSeries(d, now, staleAfter)) <==> CollisionFree(d)
      ensures forall x | x in DeviceSeries(d, now, staleAfter) :: Owned(x, d.name) && x.desc != DevicesTotal
    {
      DeviceKeys(d, now, staleAfter);
      SeriesAreOwned(d, now, staleAfter);
    }
    forall x | x in DevicesSeries(devices, now, staleAfter) ensures x.desc != DevicesTotal {
      DevicesMember(devices, now, staleAfter, x);
    }
  }

  /** A scrape never repeats a name with its labels, if and only if no device repeats a meter or a permission. */
  lemma NoDuplicateSeries(v: View, now: Instant, staleAfter: int)
    requires WellNamed(v)
    ensures DistinctKeys(CollectSpec(Some(v), now, staleAfter)) <==> forall name | name in v :: CollisionFree(v[name])
  {
    hide DevicesSeries, CollisionFree, SortedDevices, CollectSpec;
    var devices := SortedDevices(v);
    CollectSpecParts(v, now, staleAfter);
    InSnapshot(v);
    DevicesKeys(devices, now, staleAfter);
    var total := [Series(DevicesTotal, AsGauge, [], |v| as real)];
    Split(total, DevicesSeries(devices, now, staleAfter));
  }

  /** Meters told apart by identifier and kind, and distinct permissions, are enough. */
  lemma DistinctMetersAreEnough(v: View, now: Instant, staleAfter: int)
    requires WellNamed(v)
    requires forall name | name in v :: Distinct(v[name].batteries.permissions)
    requires forall name, i, j | name in v && 0 <= i < j < |v[name].measurement.external| ::
               v[name].measurement.external[i].uniqueID != v[name].measurement.external[j].uniqueID
               || v[name].measurement.external[i].kind != v[name].measurement.external[j].kind
    ensures DistinctKeys(CollectSpec(Some(v), now, staleAfter))
  {
    NoDuplicateSeries(v, now, staleAfter);
  }
}
