/** The health check, the dashboard and the metrics give one verdict on one snapshot. */
module Consumers {
  import opened Wrappers
  import opened Homewizard
  import opened Snapshot
  import opened Descriptors
  import opened Collector
  import opened CollectorFacts
  import opened Health
  import opened Dashboard
  import Polling
  import Fleet

  /** No record was read before the zero time, as no record of a running exporter is. */
  predicate Dated(v: View) {
    forall name | name in v :: v[name].LastUpdate() >= 0
  }

  predicate UpIsOne(series: seq<Series>) {
    exists x | x in series :: x.desc == OfDevice(Up) && x.value == 1.0
  }

  lemma OnlyTheHeadIsUp(d: Device, x: Series)
    requires x.desc == OfDevice(Up)
    ensures !MeasurementReports(d, x) && !AmongSingles(d, SystemSingles(d), x) && !AmongSingles(d, SocketSingles(d), x)
    ensures !AmongSingles(d, BatterySingles(d), x) && !PermissionReported(d, x) && !AmongSingles(d, WifiSingles(d), x)
  {
  }

  /** A device's homewizard_up is 1 when it is fresh and 0 when it is not. */
  lemma UpMeansFresh(d: Device, now: Instant, staleAfter: int, x: Series)
    requires x.desc == OfDevice(Up)
    ensures Reports(d, now, staleAfter, x) <==>
            x == Of(d, OfDevice(Up), AsGauge, [], BoolValue(d.Fresh(now, staleAfter)))
  {
    hide Device.Fresh, Device.LastUpdate, ReadingSingles, MeterSingles, SystemSingles, SocketSingles,
      BatterySingles, WifiSingles;
    var singles := HeadSingles(d, now, staleAfter);
    assert singles[0].desc == OfDevice(Up) && singles[1].desc != OfDevice(Up) && singles[2].desc != OfDevice(Up);
    OnlyTheHeadIsUp(d, x);
    if x == Of(d, OfDevice(Up), AsGauge, [], BoolValue(d.Fresh(now, staleAfter))) {
      assert x in OneSingle(d, singles[0]);
    }
  }

  lemma UpSeries(v: View, now: Instant, staleAfter: int)
    requires WellNamed(v)
    ensures UpIsOne(CollectSpec(Some(v), now, staleAfter)) <==> SomeFresh(v, now, staleAfter)
  {
    hide CollectSpec, Reports, Device.Fresh, Device.LastUpdate;
    if x :| x in CollectSpec(Some(v), now, staleAfter) && x.desc == OfDevice(Up) && x.value == 1.0 {
      CollectExactly(v, now, staleAfter, x);
      var name :| name in v && Reports(v[name], now, staleAfter, x);
      UpMeansFresh(v[name], now, staleAfter, x);
    }
    if name :| name in v && v[name].Fresh(now, staleAfter) {
      var x := Of(v[name], OfDevice(Up), AsGauge, [], 1.0);
      UpMeansFresh(v[name], now, staleAfter, x);
      CollectExactly(v, now, staleAfter, x);
    }
  }

  lemma PageUp(v: View, now: Instant, staleAfter: int, page: Page)
    requires Dated(v) && Summarises(v, now, staleAfter, page) && StatusFits(page)
    ensures page.up <==> SomeFresh(v, now, staleAfter)
  {
    hide Total;
    var names := FreshNames(v, now, staleAfter);
    if SomeFresh(v, now, staleAfter) {
      var name :| name in v && v[name].Fresh(now, staleAfter);
      assert name in names;
      assert v[name].LastUpdate() <= page.updatedAt;
    }
    if page.totals.online > 0 {
      var name :| name in names;
      assert v[name].Fresh(now, staleAfter);
    }
    OnlineAtMostAll(v, now, staleAfter, page);
  }

  /** The health check passes, the dashboard says up, and some homewizard_up is 1: all or none. */
  lemma OneVerdict(current: Option<View>, now: Instant, staleAfter: int, health: Result<(), HealthError>, page: Page)
    requires current.Some? ==> WellNamed(current.value) && Dated(current.value)
    requires HealthAnswer(current, now, staleAfter, health)
    requires StatusFits(page)
    requires match current
             case None => page.updatedAt == 0
             case Some(v) => Summarises(v, now, staleAfter, page)
    ensures health.Ok? <==> page.up
    ensures page.up <==> UpIsOne(CollectSpec(current, now, staleAfter))
  {
    match current
    case None =>
    case Some(v) =>
      UpSeries(v, now, staleAfter);
      PageUp(v, now, staleAfter, page);
  }

  /** What a reader got from the store: nothing before the first update, then some snapshot. */
  function Loaded(w: Fleet.World, k: nat): Option<View>
    requires k < |w.memory.loads| && w.memory.Readable(w.memory.loads[k].pointer)
  {
    var pointer := w.memory.loads[k].pointer;
    if pointer.None? then None else Some(w.memory.Show(pointer))
  }

  lemma NoneBeforeZero(v: View)
    requires forall name | name in v :: Fleet.NotBeforeZero(v[name])
    ensures Dated(v)
  {
  }

  /** So the three agree on every snapshot any reader ever loads, in any run of loops with distinct names. */
  lemma LoadedVerdict(ss: seq<Polling.Settings>, run: seq<Fleet.World>, n: nat, k: nat, now: Instant, staleAfter: int,
                      health: Result<(), HealthError>, page: Page)
    requires Fleet.DistinctNames(ss) && Fleet.Run(ss, run) && n < |run| && k < |run[n].memory.loads|
    ensures run[n].memory.Readable(run[n].memory.loads[k].pointer)
    ensures var current := Loaded(run[n], k);
            && HealthAnswer(current, now, staleAfter, health) && StatusFits(page)
            && (match current case None => page.updatedAt == 0 case Some(v) => Summarises(v, now, staleAfter, page))
            ==> (health.Ok? <==> page.up) && (page.up <==> UpIsOne(CollectSpec(current, now, staleAfter)))
  {
    Fleet.LoadedIsDated(ss, run, n, k);
    var current := Loaded(run[n], k);
    if current.Some? { NoneBeforeZero(current.value); }
    hide HealthAnswer, StatusFits, Summarises, CollectSpec, UpIsOne, Fleet.Run;
    if HealthAnswer(current, now, staleAfter, health) && StatusFits(page)
       && (match current case None => page.updatedAt == 0 case Some(v) => Summarises(v, now, staleAfter, page)) {
      OneVerdict(current, now, staleAfter, health, page);
    }
  }

  /** The three consumers side by side on one snapshot. */
  method Consume(current: Option<View>, now: Instant, staleAfter: int, out: Emitter)
    returns (health: Result<(), HealthError>, page: Page)
    requires current.Some? ==> WellNamed(current.value) && Dated(current.value)
    modifies out
    ensures out.sent == old(out.sent) + CollectSpec(current, now, staleAfter)
    ensures health.Ok? <==> page.up
    ensures page.up <==> UpIsOne(CollectSpec(current, now, staleAfter))
  {
    health := Healthz(current, now, staleAfter);
    page := BuildView(current, staleAfter, now);
    out.Collect(current, now, staleAfter);
    hide CollectSpec, HealthAnswer, Summarises, StatusFits;
    OneVerdict(current, now, staleAfter, health, page);
  }
}
