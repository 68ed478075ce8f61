/** Projection of the v1 and v2 responses onto the shared measurement. */
module Measurements {
  import opened Wrappers
  import opened Lists
  import opened Homewizard
  import opened Timestamps

  datatype V1External = V1External(
    uniqueID: string, kind: string, timestamp: Reading, value: Reading, unit: string)

  /** `copied` holds the fields the program copies one to one before it looks at any timestamp. */
  datatype V1Data = V1Data(
    copied: Measurement,
    montlyPowerPeakTimestamp: Reading,
    totalGasM3: Reading, gasTimestamp: Reading, uniqueGasID: string, gasUniqueID: string,
    external: seq<V1External>)

  datatype V2External = V2External(
    uniqueID: string, kind: string, timestamp: string, value: Reading, unit: string)

  datatype V2Measurement = V2Measurement(
    copied: Measurement, timestamp: string, monthlyPowerPeakTimestamp: string, external: seq<V2External>)

  /** Which timestamp could not be read. */
  datatype ProjectionError = BadTimestamp | BadPeak | BadExternal(index: nat) | BadGas

  /** The local time zone: the moment a civil date-time names. */
  type Zone = Civil -> Instant

  function Stamp(zone: Zone, p: Parsed): Option<Instant> {
    match p
    case Never => Some(0)
    case At(c) => Some(zone(c))
    case Malformed => None
  }

  /** A v1 timestamp; an absent one is the zero time. */
  function CompactStamp(zone: Zone, t: Reading): Option<Instant> {
    match t
    case None => Some(0)
    case Some(n) => Stamp(zone, ParseCompact(n))
  }

  function ISOStamp(zone: Zone, t: string): Option<Instant> {
    Stamp(zone, ParseISO(t))
  }

  // ---- which moment a timestamp stands for ----

  /** The date-times a v1 number can spell. */
  predicate InCompactRange(c: Civil) {
    c.Valid() && 1969 <= c.year <= 2068 && c.nanos == 0
  }

  /** No v1 timestamp, or one that spells a date-time. */
  ghost predicate CompactReadable(t: Reading) {
    t.None? || t.value <= 0.0 || exists c: Civil :: InCompactRange(c) && CompactNumber(c) == t.value.Floor
  }

  /** The zero time for no v1 timestamp, and else the moment the local zone gives the date-time it spells. */
  ghost predicate CompactMoment(zone: Zone, t: Reading, at: Instant) {
    && (t.None? || t.value <= 0.0 ==> at == 0)
    && forall c: Civil | InCompactRange(c) && t.Some? && t.value > 0.0 && CompactNumber(c) == t.value.Floor ::
         at == zone(c)
  }

  /** The same for v2 text. */
  ghost predicate ISOMoment(zone: Zone, t: string, at: Instant) {
    && (t == "" ==> at == 0)
    && (forall c: Civil | c.Valid() && 0 <= c.year < 10000 && c.nanos == 0 && t == FormatISO(c) :: at == zone(c))
    && (ParseISO(t).At? ==> at == zone(ParseISO(t).civil))
  }

  lemma CompactOfFloor(n: real, c: Civil)
    requires InCompactRange(c) && n > 0.0 && CompactNumber(c) == n.Floor
    ensures ParseCompact(n) == At(c)
  {
    CompactRoundTrip(c);
    assert (n.Floor as real).Floor == n.Floor;
    assert n.Floor > 0;
  }

  lemma CompactStampMeans(zone: Zone, t: Reading)
    ensures CompactStamp(zone, t).Some? <==> CompactReadable(t)
    ensures CompactStamp(zone, t).Some? ==> CompactMoment(zone, t, CompactStamp(zone, t).value)
  {
    hide ParseCompact, CompactNumber;
    if t.Some? && t.value <= 0.0 {
      CompactAccepts(t.value);
    } else if t.Some? {
      CompactAccepts(t.value);
      forall c: Civil | InCompactRange(c) && CompactNumber(c) == t.value.Floor ensures ParseCompact(t.value) == At(c) {
        CompactOfFloor(t.value, c);
      }
      if ParseCompact(t.value).At? {
        assert InCompactRange(ParseCompact(t.value).civil);
      }
    }
  }

  lemma ISOStampMeans(zone: Zone, t: string)
    ensures ISOStamp(zone, t).Some? <==> !ParseISO(t).Malformed?
    ensures ISOStamp(zone, t).Some? ==> ISOMoment(zone, t, ISOStamp(zone, t).value)
  {
    ISOAccepts(t);
    forall c: Civil | c.Valid() && 0 <= c.year < 10000 && c.nanos == 0 && t == FormatISO(c)
      ensures ParseISO(t) == At(c)
    {
      ISORoundTrip(c);
    }
    hide ParseISO, FormatISO;
  }

  // ---- what both generations mean by a list of external meters ----

  /** One listed meter, with its timestamp already read; `None` is a malformed timestamp. */
  datatype Entry = Entry(uniqueID: string, kind: string, unit: string, value: Reading, stamp: Option<Instant>)
  {
    predicate Bad() { value.Some? && stamp.None? }

    function Meter(): External
      requires value.Some? && stamp.Some?
    {
      External(uniqueID, kind, unit, value.value, stamp.value)
    }
  }

  function V1Entry(zone: Zone, e: V1External): Entry {
    Entry(e.uniqueID, e.kind, e.unit, e.value, CompactStamp(zone, e.timestamp))
  }

  function V2Entry(zone: Zone, e: V2External): Entry {
    Entry(e.uniqueID, e.kind, e.unit, e.value, ISOStamp(zone, e.timestamp))
  }

  function V1Entries(zone: Zone, list: seq<V1External>): (es: seq<Entry>)
    ensures |es| == |list|
  {
    seq(|list|, i requires 0 <= i < |list| => V1Entry(zone, list[i]))
  }

  function V2Entries(zone: Zone, list: seq<V2External>): (es: seq<Entry>)
    ensures |es| == |list|
  {
    seq(|list|, i requires 0 <= i < |list| => V2Entry(zone, list[i]))
  }

  /** The entries that have a value, in order. */
  function Valued(es: seq<Entry>): (r: seq<Entry>)
    ensures forall e | e in r :: e.value.Some?
  {
    Filter((e: Entry) => e.value.Some?, es)
  }

  predicate NoneBad(es: seq<Entry>) {
    forall i | 0 <= i < |es| :: !es[i].Bad()
  }

  predicate FirstBad(es: seq<Entry>, i: nat) {
    i < |es| && es[i].Bad() && NoneBad(es[..i])
  }

  lemma ValuedStep(es: seq<Entry>)
    requires es != []
    ensures var init, last := es[..|es| - 1], es[|es| - 1];
            Valued(es) == Valued(init) + if last.value.Some? then [last] else []
    ensures Valued([]) == []
  {
  }

  lemma {:induction false} ValuedKeepsStamps(es: seq<Entry>)
    requires NoneBad(es)
    ensures forall k | 0 <= k < |Valued(es)| :: Valued(es)[k].stamp.Some?
  {
    if es != [] {
      ValuedStep(es);
      ValuedKeepsStamps(es[..|es| - 1]);
    }
  }

  function Meters(es: seq<Entry>): (r: seq<External>)
    requires NoneBad(es)
    ensures |r| == |Valued(es)|
  {
    ValuedKeepsStamps(es);
    seq(|Valued(es)|, k requires 0 <= k < |Valued(es)| => Valued(es)[k].Meter())
  }

  /** The positions of the valued entries. */
  function Positions(es: seq<Entry>): (r: seq<nat>)
    ensures |r| == |Valued(es)|
  {
    if es == [] then []
    else Positions(es[..|es| - 1]) + (if es[|es| - 1].value.Some? then [|es| - 1] else [])
  }

  lemma PositionsStep(es: seq<Entry>)
    requires es != []
    ensures var n, last := |es| - 1, es[|es| - 1];
            && Positions(es) == Positions(es[..n]) + (if last.value.Some? then [n] else [])
            && Valued(es) == Valued(es[..n]) + (if last.value.Some? then [last] else [])
  {
    ValuedStep(es);
  }

  /** The positions ascend and hold exactly the valued entries. */
  lemma {:induction false} PositionsAreOfValued(es: seq<Entry>)
    ensures forall k | 0 <= k < |Positions(es)| :: Positions(es)[k] < |es| && Valued(es)[k] == es[Positions(es)[k]]
    ensures forall j, k | 0 <= j < k < |Positions(es)| :: Positions(es)[j] < Positions(es)[k]
    ensures forall i | 0 <= i < |es| :: es[i].value.Some? <==> i in Positions(es)
  {
    if es != [] {
      PositionsAreOfValued(es[..|es| - 1]);
      PositionsStep(es);
      hide Positions, Valued;
      assert forall i | 0 <= i < |es| - 1 :: es[..|es| - 1][i] == es[i];
    }
  }

  /** The list is exactly the valued entries: nothing else, nothing missing, order kept. */
  lemma MetersAreTheValuedEntries(es: seq<Entry>)
    requires NoneBad(es)
    ensures forall k | 0 <= k < |Meters(es)| ::
              Positions(es)[k] < |es| && es[Positions(es)[k]].value.Some? && es[Positions(es)[k]].stamp.Some? &&
              Meters(es)[k] == es[Positions(es)[k]].Meter()
    ensures forall j, k | 0 <= j < k < |Meters(es)| :: Positions(es)[j] < Positions(es)[k]
    ensures forall i | 0 <= i < |es| :: es[i].value.Some? <==> i in Positions(es)
  {
    PositionsAreOfValued(es);
    ValuedKeepsStamps(es);
    hide Positions, Valued;
  }

  /** What the loop does with entry i. */
  lemma MetersStep(es: seq<Entry>, i: nat)
    requires i < |es| && NoneBad(es[..i])
    ensures es[i].Bad() ==> FirstBad(es, i)
    ensures !es[i].Bad() ==> NoneBad(es[..i + 1])
    ensures !es[i].Bad() ==>
              Meters(es[..i + 1]) == Meters(es[..i]) + (if es[i].value.Some? then [es[i].Meter()] else [])
  {
    var init, next := es[..i], es[..i + 1];
    assert next[..|next| - 1] == init && next[|next| - 1] == es[i];
    assert next == init + [es[i]];
  }

  /** A list of one entry. */
  lemma MetersOfOne(e: Entry)
    ensures NoneBad([e]) <==> !e.Bad()
    ensures Valued([e]) == if e.value.Some? then [e] else []
    ensures !e.Bad() ==> Meters([e]) == if e.value.Some? then [e.Meter()] else []
  {
    assert [e][..0] == [];
    assert [e][0] == e;
    ValuedStep([e]);
  }

  // ---- v1 ----

  function FirstNonEmpty(a: string, b: string): string {
    if a != "" then a else b
  }

  /** The gas meter older firmware reports outside the list. */
  function GasEntry(zone: Zone, d: V1Data): Entry {
    Entry(FirstNonEmpty(d.uniqueGasID, d.gasUniqueID), "gas_meter", "m3", d.totalGasM3,
          CompactStamp(zone, d.gasTimestamp))
  }

  /** The list whose meters end up in the measurement: the gas meter stands in for an empty list. */
  function V1Sources(zone: Zone, d: V1Data): seq<Entry> {
    var es := V1Entries(zone, d.external);
    if Valued(es) == [] then [GasEntry(zone, d)] else es
  }

  /** Every timestamp the program has to read is well formed. */
  predicate V1WellFormed(zone: Zone, d: V1Data) {
    && CompactStamp(zone, d.montlyPowerPeakTimestamp).Some?
    && NoneBad(V1Entries(zone, d.external))
    && (Valued(V1Entries(zone, d.external)) == [] ==> !GasEntry(zone, d).Bad())
  }

  /** An optional v1 timestamp, read the way the program reads it. */
  method ReadCompact(t: Reading, zone: Zone) returns (at: Option<Instant>)
    ensures at == CompactStamp(zone, t)
  {
    if t.None? {
      return Some(0);
    }
    var p := ParseCompactTimestamp(t.value);
    at := Stamp(zone, p);
  }

  /** The loop over `external`; an error carries the index of the entry. */
  method V1Externals(entries: seq<V1External>, zone: Zone) returns (r: Result<seq<External>, nat>)
    ensures r.Ok? <==> NoneBad(V1Entries(zone, entries))
    ensures r.Ok? ==> r.value == Meters(V1Entries(zone, entries))
    ensures r.Err? ==> FirstBad(V1Entries(zone, entries), r.error)
  {
    ghost var es := V1Entries(zone, entries);
    var list: seq<External> := [];
    for i := 0 to |entries|
      invariant NoneBad(es[..i])
      invariant list == Meters(es[..i])
    {
      var e := entries[i];
      MetersStep(es, i);
      if e.value.None? {
        continue;
      }
      var at := ReadCompact(e.timestamp, zone);
      if at.None? {
        return Err(i);
      }
      list := list + [External(e.uniqueID, e.kind, e.unit, e.value.value, at.value)];
    }
    assert es[..|es|] == es;
    r := Ok(list);
  }

  predicate AllStamped(es: seq<Entry>) {
    forall k | 0 <= k < |es| :: es[k].stamp.Some?
  }

  lemma OneMore(es: seq<Entry>, e: Entry)
    ensures AllStamped(es + [e]) <==> AllStamped(es) && e.stamp.Some?
    ensures NoneBad(es + [e]) <==> NoneBad(es) && !e.Bad()
  {
    var more := es + [e];
    assert more[|es|] == e && forall k | 0 <= k < |es| :: more[k] == es[k];
  }

  lemma {:induction false} BadEntriesAreValued(es: seq<Entry>)
    ensures NoneBad(es) <==> AllStamped(Valued(es))
  {
    if es != [] {
      var init, last := es[..|es| - 1], es[|es| - 1];
      BadEntriesAreValued(init);
      assert es == init + [last];
      hide NoneBad, AllStamped;
      OneMore(init, last);
      OneMore(Valued(init), last);
      assert Valued(es) == if last.value.Some? then Valued(init) + [last] else Valued(init);
    } else {
      assert NoneBad([]) && AllStamped([]);
    }
  }

  /** The listed meters that report a value, in order, before any timestamp is read. */
  function V1Reported(list: seq<V1External>): (r: seq<V1External>)
    ensures forall e | e in r :: e.value.Some?
  {
    Filter((e: V1External) => e.value.Some?, list)
  }

  ghost predicate V1Shows(zone: Zone, v1: V1External, e: External) {
    && e.uniqueID == v1.uniqueID && e.kind == v1.kind && e.unit == v1.unit && v1.value == Some(e.value)
    && CompactMoment(zone, v1.timestamp, e.timestamp)
  }

  lemma {:induction false} V1ValuedAreReported(zone: Zone, list: seq<V1External>)
    ensures Valued(V1Entries(zone, list)) == V1Entries(zone, V1Reported(list))
  {
    hide CompactStamp;
    if list != [] {
      var init, es := list[..|list| - 1], V1Entries(zone, list);
      V1ValuedAreReported(zone, init);
      assert es[..|es| - 1] == V1Entries(zone, init);
    }
  }

  lemma V1ListMeans(zone: Zone, list: seq<V1External>)
    ensures NoneBad(V1Entries(zone, list)) <==> forall e | e in V1Reported(list) :: CompactReadable(e.timestamp)
    ensures NoneBad(V1Entries(zone, list)) ==>
              && |Meters(V1Entries(zone, list))| == |V1Reported(list)|
              && forall k | 0 <= k < |V1Reported(list)| ::
                   V1Shows(zone, V1Reported(list)[k], Meters(V1Entries(zone, list))[k])
  {
    var es, reported := V1Entries(zone, list), V1Reported(list);
    V1ValuedAreReported(zone, list);
    BadEntriesAreValued(es);
    hide CompactStamp, CompactReadable, CompactMoment;
    forall k | 0 <= k < |reported|
      ensures Valued(es)[k] == V1Entry(zone, reported[k])
      ensures Valued(es)[k].stamp.Some? <==> CompactReadable(reported[k].timestamp)
      ensures Valued(es)[k].stamp.Some? ==> CompactMoment(zone, reported[k].timestamp, Valued(es)[k].stamp.value)
    {
      CompactStampMeans(zone, reported[k].timestamp);
    }
  }

  /** The reported meters one by one, or the flat gas meter alone when there is none. */
  ghost predicate V1Meters(zone: Zone, d: V1Data, external: seq<External>) {
    var reported := V1Reported(d.external);
    if reported != [] then
      |external| == |reported| && forall k | 0 <= k < |reported| :: V1Shows(zone, reported[k], external[k])
    else if d.totalGasM3.Some? then
      && |external| == 1
      && external[0].uniqueID == (if d.uniqueGasID != "" then d.uniqueGasID else d.gasUniqueID)
      && external[0].kind == "gas_meter" && external[0].unit == "m3" && external[0].value == d.totalGasM3.value
      && CompactMoment(zone, d.gasTimestamp, external[0].timestamp)
    else external == []
  }

  /** Every v1 timestamp that matters spells a date-time or is absent. */
  ghost predicate V1Readable(d: V1Data) {
    && CompactReadable(d.montlyPowerPeakTimestamp)
    && (forall e | e in V1Reported(d.external) :: CompactReadable(e.timestamp))
    && (V1Reported(d.external) == [] && d.totalGasM3.Some? ==> CompactReadable(d.gasTimestamp))
  }

  lemma V1Means(zone: Zone, d: V1Data)
    ensures V1WellFormed(zone, d) <==> V1Readable(d)
    ensures V1WellFormed(zone, d) ==>
              && NoneBad(V1Sources(zone, d)) && V1Meters(zone, d, Meters(V1Sources(zone, d)))
              && CompactMoment(zone, d.montlyPowerPeakTimestamp, CompactStamp(zone, d.montlyPowerPeakTimestamp).value)
  {
    hide CompactStamp, CompactReadable, CompactMoment;
    V1ListMeans(zone, d.external);
    V1ValuedAreReported(zone, d.external);
    CompactStampMeans(zone, d.montlyPowerPeakTimestamp);
    CompactStampMeans(zone, d.gasTimestamp);
    MetersOfOne(GasEntry(zone, d));
  }

  method MeasurementV1(d: V1Data, zone: Zone) returns (r: Result<Measurement, ProjectionError>)
    ensures r.Ok? <==> V1Readable(d)
    ensures r.Ok? ==> V1Meters(zone, d, r.value.external)
    ensures r.Ok? ==> CompactMoment(zone, d.montlyPowerPeakTimestamp, r.value.monthlyPowerPeakAt)
    ensures r.Ok? <==> V1WellFormed(zone, d)
    ensures r.Ok? ==>
              r.value == d.copied.(monthlyPowerPeakAt := CompactStamp(zone, d.montlyPowerPeakTimestamp).value,
                                   external := Meters(V1Sources(zone, d)))
    ensures r.Err? ==>
              match r.error
              case BadTimestamp => false
              case BadPeak => CompactStamp(zone, d.montlyPowerPeakTimestamp).None?
              case BadExternal(i) => CompactStamp(zone, d.montlyPowerPeakTimestamp).Some? &&
                                     FirstBad(V1Entries(zone, d.external), i)
              case BadGas => CompactStamp(zone, d.montlyPowerPeakTimestamp).Some? &&
                             NoneBad(V1Entries(zone, d.external))
  {
    V1Means(zone, d);
    hide V1Readable, V1Meters, CompactMoment, CompactStamp;
    var peak := ReadCompact(d.montlyPowerPeakTimestamp, zone);
    if peak.None? {
      return Err(BadPeak);
    }
    var listed := V1Externals(d.external, zone);
    if listed.Err? {
      return Err(BadExternal(listed.error));
    }
    var list := listed.value;
    MetersOfOne(GasEntry(zone, d));
    if |list| == 0 && d.totalGasM3.Some? {
      var at := ReadCompact(d.gasTimestamp, zone);
      if at.None? {
        return Err(BadGas);
      }
      list := [External(FirstNonEmpty(d.uniqueGasID, d.gasUniqueID), "gas_meter", "m3", d.totalGasM3.value, at.value)];
    }
    r := Ok(d.copied.(monthlyPowerPeakAt := peak.value, external := list));
  }

  // ---- v2 ----

  predicate V2WellFormed(zone: Zone, d: V2Measurement) {
    && ISOStamp(zone, d.timestamp).Some?
    && ISOStamp(zone, d.monthlyPowerPeakTimestamp).Some?
    && NoneBad(V2Entries(zone, d.external))
  }

  method V2Externals(entries: seq<V2External>, zone: Zone) returns (r: Result<seq<External>, nat>)
    ensures r.Ok? <==> NoneBad(V2Entries(zone, entries))
    ensures r.Ok? ==> r.value == Meters(V2Entries(zone, entries))
    ensures r.Err? ==> FirstBad(V2Entries(zone, entries), r.error)
  {
    ghost var es := V2Entries(zone, entries);
    var list: seq<External> := [];
    for i := 0 to |entries|
      invariant NoneBad(es[..i])
      invariant list == Meters(es[..i])
    {
      var e := entries[i];
      MetersStep(es, i);
      if e.value.None? {
        continue;
      }
      var at := ISOStamp(zone, e.timestamp);
      if at.None? {
        return Err(i);
      }
      list := list + [External(e.uniqueID, e.kind, e.unit, e.value.value, at.value)];
    }
    assert es[..|es|] == es;
    r := Ok(list);
  }

  function V2Reported(list: seq<V2External>): (r: seq<V2External>)
    ensures forall e | e in r :: e.value.Some?
  {
    Filter((e: V2External) => e.value.Some?, list)
  }

  ghost predicate V2Shows(zone: Zone, v2: V2External, e: External) {
    && e.uniqueID == v2.uniqueID && e.kind == v2.kind && e.unit == v2.unit && v2.value == Some(e.value)
    && ISOMoment(zone, v2.timestamp, e.timestamp)
  }

  lemma {:induction false} V2ValuedAreReported(zone: Zone, list: seq<V2External>)
    ensures Valued(V2Entries(zone, list)) == V2Entries(zone, V2Reported(list))
  {
    hide ISOStamp;
    if list != [] {
      var init, es := list[..|list| - 1], V2Entries(zone, list);
      V2ValuedAreReported(zone, init);
      assert es[..|es| - 1] == V2Entries(zone, init);
    }
  }

  lemma V2ListMeans(zone: Zone, list: seq<V2External>)
    ensures NoneBad(V2Entries(zone, list)) <==> forall e | e in V2Reported(list) :: !ParseISO(e.timestamp).Malformed?
    ensures NoneBad(V2Entries(zone, list)) ==>
              && |Meters(V2Entries(zone, list))| == |V2Reported(list)|
              && forall k | 0 <= k < |V2Reported(list)| ::
                   V2Shows(zone, V2Reported(list)[k], Meters(V2Entries(zone, list))[k])
  {
    var es, reported := V2Entries(zone, list), V2Reported(list);
    V2ValuedAreReported(zone, list);
    BadEntriesAreValued(es);
    hide ISOStamp, ParseISO, ISOMoment;
    forall k | 0 <= k < |reported|
      ensures Valued(es)[k] == V2Entry(zone, reported[k])
      ensures Valued(es)[k].stamp.Some? <==> !ParseISO(reported[k].timestamp).Malformed?
      ensures Valued(es)[k].stamp.Some? ==> ISOMoment(zone, reported[k].timestamp, Valued(es)[k].stamp.value)
    {
      ISOStampMeans(zone, reported[k].timestamp);
    }
  }

  ghost predicate V2Meters(zone: Zone, d: V2Measurement, external: seq<External>) {
    var reported := V2Reported(d.external);
    |external| == |reported| && forall k | 0 <= k < |reported| :: V2Shows(zone, reported[k], external[k])
  }

  ghost predicate V2Readable(d: V2Measurement) {
    && !ParseISO(d.timestamp).Malformed? && !ParseISO(d.monthlyPowerPeakTimestamp).Malformed?
    && forall e | e in V2Reported(d.external) :: !ParseISO(e.timestamp).Malformed?
  }

  lemma V2Means(zone: Zone, d: V2Measurement)
    ensures V2WellFormed(zone, d) <==> V2Readable(d)
    ensures V2WellFormed(zone, d) ==>
              && V2Meters(zone, d, Meters(V2Entries(zone, d.external)))
              && ISOMoment(zone, d.timestamp, ISOStamp(zone, d.timestamp).value)
              && ISOMoment(zone, d.monthlyPowerPeakTimestamp, ISOStamp(zone, d.monthlyPowerPeakTimestamp).value)
  {
    hide ISOStamp, ParseISO, ISOMoment;
    V2ListMeans(zone, d.external);
    ISOStampMeans(zone, d.timestamp);
    ISOStampMeans(zone, d.monthlyPowerPeakTimestamp);
  }

  method MeasurementV2(d: V2Measurement, zone: Zone) returns (r: Result<Measurement, ProjectionError>)
    ensures r.Ok? <==> V2Readable(d)
    ensures r.Ok? ==> V2Meters(zone, d, r.value.external)
    ensures r.Ok? ==> ISOMoment(zone, d.timestamp, r.value.timestamp)
    ensures r.Ok? ==> ISOMoment(zone, d.monthlyPowerPeakTimestamp, r.value.monthlyPowerPeakAt)
    ensures r.Ok? <==> V2WellFormed(zone, d)
    ensures r.Ok? ==>
              r.value == d.copied.(timestamp := ISOStamp(zone, d.timestamp).value,
                                   monthlyPowerPeakAt := ISOStamp(zone, d.monthlyPowerPeakTimestamp).value,
                                   external := Meters(V2Entries(zone, d.external)))
    ensures r.Err? ==>
              match r.error
              case BadTimestamp => ISOStamp(zone, d.timestamp).None?
              case BadPeak => ISOStamp(zone, d.timestamp).Some? && ISOStamp(zone, d.monthlyPowerPeakTimestamp).None?
              case BadExternal(i) => ISOStamp(zone, d.timestamp).Some? &&
                                     ISOStamp(zone, d.monthlyPowerPeakTimestamp).Some? &&
                                     FirstBad(V2Entries(zone, d.external), i)
              case BadGas => false
  {
    V2Means(zone, d);
    hide V2Readable, V2Meters, ISOMoment, ISOStamp;
    var at := ISOStamp(zone, d.timestamp);
    if at.None? {
      return Err(BadTimestamp);
    }
    var peak := ISOStamp(zone, d.monthlyPowerPeakTimestamp);
    if peak.None? {
      return Err(BadPeak);
    }
    var listed := V2Externals(d.external, zone);
    if listed.Err? {
      return Err(BadExternal(listed.error));
    }
    r := Ok(d.copied.(timestamp := at.value, monthlyPowerPeakAt := peak.value, external := listed.value));
  }

  // ---- the two generations agree ----

  /** One date-time in the two notations, or no date-time in either. */
  ghost predicate SameTime(compact: Reading, iso: string) {
    if iso == "" then compact.None? || compact.value <= 0.0
    else
      exists c: Civil :: c.Valid() && 1969 <= c.year <= 2068 && c.nanos == 0
        && compact == Some(CompactNumber(c) as real) && iso == FormatISO(c)
  }

  /** The same meter as the two generations report it. */
  ghost predicate SameMeter(v1: V1External, v2: V2External) {
    && v1.uniqueID == v2.uniqueID && v1.kind == v2.kind && v1.unit == v2.unit && v1.value == v2.value
    && SameTime(v1.timestamp, v2.timestamp)
  }

  /** The same reported meters in the same order, whatever unreported entries stand between them. */
  ghost predicate Matching(v1: seq<V1External>, v2: seq<V2External>) {
    var r1, r2 := V1Reported(v1), V2Reported(v2);
    |r1| == |r2| && forall k | 0 <= k < |r1| :: SameMeter(r1[k], r2[k])
  }

  lemma SameTimeSameStamp(zone: Zone, compact: Reading, iso: string)
    requires SameTime(compact, iso)
    ensures CompactStamp(zone, compact) == ISOStamp(zone, iso)
    ensures CompactStamp(zone, compact).Some?
  {
    if iso != "" {
      var c: Civil :| c.Valid() && 1969 <= c.year <= 2068 && c.nanos == 0
        && compact == Some(CompactNumber(c) as real) && iso == FormatISO(c);
      FormatsAgree(c);
    }
  }

  lemma MatchingEntries(zone: Zone, v1: seq<V1External>, v2: seq<V2External>)
    requires Matching(v1, v2)
    ensures Valued(V1Entries(zone, v1)) == Valued(V2Entries(zone, v2))
    ensures AllStamped(Valued(V1Entries(zone, v1)))
  {
    hide CompactStamp, ISOStamp, SameTime;
    V1ValuedAreReported(zone, v1);
    V2ValuedAreReported(zone, v2);
    var r1, r2 := V1Reported(v1), V2Reported(v2);
    forall k | 0 <= k < |r1|
      ensures V1Entry(zone, r1[k]) == V2Entry(zone, r2[k]) && V1Entry(zone, r1[k]).stamp.Some?
    {
      assert SameMeter(r1[k], r2[k]);
      SameTimeSameStamp(zone, r1[k].timestamp, r2[k].timestamp);
    }
  }

  /** Matching responses list their meters acceptably on both generations, and give the same meters. */
  lemma GenerationsAgree(zone: Zone, d1: V1Data, d2: V2Measurement)
    requires Matching(d1.external, d2.external)
    requires V1Reported(d1.external) != [] || d1.totalGasM3.None?
    ensures NoneBad(V1Sources(zone, d1)) && NoneBad(V2Entries(zone, d2.external))
    ensures Meters(V1Sources(zone, d1)) == Meters(V2Entries(zone, d2.external))
  {
    hide SameMeter;
    MatchingEntries(zone, d1.external, d2.external);
    V1ValuedAreReported(zone, d1.external);
    MetersOfOne(GasEntry(zone, d1));
    BadEntriesAreValued(V1Sources(zone, d1));
    BadEntriesAreValued(V2Entries(zone, d2.external));
  }

  /** A gas meter is promoted only when nothing in the list has a value, and then it is alone. */
  lemma GasPromotion(zone: Zone, d: V1Data)
    requires V1WellFormed(zone, d)
    ensures NoneBad(V1Sources(zone, d))
    ensures Valued(V1Entries(zone, d.external)) == [] && d.totalGasM3.Some? ==>
              |Meters(V1Sources(zone, d))| == 1 &&
              Meters(V1Sources(zone, d))[0] ==
              External(FirstNonEmpty(d.uniqueGasID, d.gasUniqueID), "gas_meter", "m3", d.totalGasM3.value,
                       CompactStamp(zone, d.gasTimestamp).value)
    ensures Valued(V1Entries(zone, d.external)) == [] && d.totalGasM3.None? ==> Meters(V1Sources(zone, d)) == []
    ensures Valued(V1Entries(zone, d.external)) != [] ==>
              Meters(V1Sources(zone, d)) == Meters(V1Entries(zone, d.external))
  {
    MetersOfOne(GasEntry(zone, d));
  }
}
