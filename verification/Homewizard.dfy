/** The shared data model of the devices' local API, its capabilities and the client object. */
module Homewizard {
  import opened Wrappers
  import opened Text

  const APIv1 := "v1"
  const APIv2 := "v2"

  const ProductP1 := "HWE-P1"
  const ProductSocket := "HWE-SKT"
  const ProductWater := "HWE-WTR"
  const ProductKWh1 := "HWE-KWH1"
  const ProductKWh3 := "HWE-KWH3"
  const ProductSDM230 := "SDM230-wifi"
  const ProductSDM630 := "SDM630-wifi"
  const ProductBattery := "HWE-BAT"

  /** Nanoseconds since Go's zero time; 0 is the zero time itself. */
  type Instant = int

  /** A reading the device may leave out: Go's nil-able *float64. */
  type Reading = Option<real>

  /** Go's [3]*float64 and [4]*float64. */
  type Phases = p: seq<Reading> | |p| == 3 witness [None, None, None]
  type Tariffs = p: seq<Reading> | |p| == 4 witness [None, None, None, None]

  datatype Info = Info(
    productType: string, productName: string, serial: string, firmwareVersion: string, apiVersion: string)

  datatype External = External(uniqueID: string, kind: string, unit: string, value: real, timestamp: Instant)

  datatype Measurement = Measurement(
    meterModel: string,
    uniqueID: string,
    protocolVersion: Reading,
    timestamp: Instant,
    tariff: Reading,
    energyImportKWh: Reading,
    energyExportKWh: Reading,
    energyImportTariffKWh: Tariffs,
    energyExportTariffKWh: Tariffs,
    powerW: Reading,
    powerPhaseW: Phases,
    voltageV: Reading,
    voltagePhaseV: Phases,
    currentA: Reading,
    currentPhaseA: Phases,
    apparentPowerVA: Reading,
    apparentPowerPhaseVA: Phases,
    reactivePowerVAR: Reading,
    reactivePowerPhaseVA: Phases,
    apparentCurrentA: Reading,
    apparentCurrentPhaseA: Phases,
    reactiveCurrentA: Reading,
    reactiveCurrentPhaseA: Phases,
    powerFactor: Reading,
    powerFactorPhase: Phases,
    frequencyHz: Reading,
    voltageSagPhaseCount: Phases,
    voltageSwellPhaseCount: Phases,
    anyPowerFailCount: Reading,
    longPowerFailCount: Reading,
    averagePower15mW: Reading,
    monthlyPowerPeakW: Reading,
    monthlyPowerPeakAt: Instant,
    activeWaterLPM: Reading,
    totalWaterM3: Reading,
    stateOfChargePct: Reading,
    cycles: Reading,
    external: seq<External>,
    wifiSSID: string,
    wifiStrengthPct: Reading)

  datatype State = State(powerOn: Option<bool>, switchLock: Option<bool>, brightness: Option<int>)

  datatype System = System(
    wifiSSID: Option<string>, wifiRSSIdB: Reading, uptimeS: Reading,
    cloudEnabled: Option<bool>, ledBrightness: Reading, apiv1Enabled: Option<bool>)

  datatype Batteries = Batteries(
    mode: string, permissions: seq<string>, chargeToFull: Option<bool>, batteryCount: Reading,
    powerW: Reading, targetPowerW: Reading, maxConsumptionW: Reading, maxProductionW: Reading)

  const NoPhases: Phases := [None, None, None]
  const NoTariffs: Tariffs := [None, None, None, None]

  /** The zero values a new device record starts with. */
  const EmptyMeasurement := Measurement(
    "", "", None, 0, None, None, None, NoTariffs, NoTariffs, None, NoPhases, None, NoPhases, None, NoPhases,
    None, NoPhases, None, NoPhases, None, NoPhases, None, NoPhases, None, NoPhases, None, NoPhases, NoPhases,
    None, None, None, None, 0, None, None, None, None, [], "", None)
  const EmptyInfo := Info("", "", "", "", "")
  const EmptyState := State(None, None, None)
  const EmptySystem := System(None, None, None, None, None, None)
  const EmptyBatteries := Batteries("", [], None, None, None, None, None, None)

  /** Which endpoints a device is expected to answer. */
  datatype Capabilities = Capabilities(
    measurement: bool, system: bool, state: bool, telegram: bool, batteries: bool)
  {
    /** Every endpoint allowed here is allowed there. */
    predicate Within(other: Capabilities) {
      && (measurement ==> other.measurement)
      && (system ==> other.system)
      && (state ==> other.state)
      && (telegram ==> other.telegram)
      && (batteries ==> other.batteries)
    }
  }

  const NoCapabilities := Capabilities(false, false, false, false, false)

  const MaxInt64 := 0x7fff_ffff_ffff_ffff
  const MinInt64 := -0x8000_0000_0000_0000

  /** strconv.Atoi: an optional sign, at least one digit, in the range of a 64-bit int. */
  function Atoi(s: string): Option<int> {
    var negative := s != [] && s[0] == '-';
    var digits := if s != [] && s[0] in {'-', '+'} then s[1..] else s;
    if digits == [] || !AllDigits(digits) then None
    else
      var n: int := if negative then 0 - Value(digits) else Value(digits);
      if MinInt64 <= n <= MaxInt64 then Some(n) else None
  }

  /** The text before the first dot, and what follows that dot. */
  function BeforeDot(s: string): (r: (string, Option<string>))
    ensures '.' !in r.0
    ensures s == match r.1 case None => r.0 case Some(rest) => r.0 + "." + rest
  {
    if s == [] then ([], None)
    else if s[0] == '.' then ([], Some(s[1..]))
    else var (head, tail) := BeforeDot(s[1..]); ([s[0]] + head, tail)
  }

  function AtLeastAPI(version: string, major: int, minor: int): bool {
    var trimmed := if version != [] && version[0] == 'v' then version[1..] else version;
    var (first, rest) := BeforeDot(trimmed);
    match Atoi(first)
    case None => false
    case Some(gotMajor) =>
      if gotMajor != major then gotMajor > major
      else
        match rest
        case None => minor == 0
        case Some(tail) =>
          match Atoi(BeforeDot(tail).0)
          case None => false
          case Some(gotMinor) => gotMinor >= minor
  }

  function CapabilitiesFor(info: Info, version: string): Capabilities {
    var caps := Capabilities(true, true, false, false, false);
    var v2 := version == APIv2;
    var p := info.productType;
    if p == ProductP1 then
      caps.(telegram := true, batteries := v2 && AtLeastAPI(info.apiVersion, 2, 1))
    else if p in {ProductKWh1, ProductKWh3, ProductSDM230, ProductSDM630} then
      caps.(batteries := v2 && AtLeastAPI(info.apiVersion, 2, 1))
    else if p == ProductSocket then
      caps.(state := !v2)
    else
      caps
  }

  /** Exactly which endpoints a product is expected to answer on an API generation. */
  lemma CapabilitiesByGeneration(info: Info, version: string)
    ensures var caps, product := CapabilitiesFor(info, version), info.productType;
            && caps.measurement && caps.system
            && (caps.state <==> version != "v2" && product == "HWE-SKT")
            && (caps.telegram <==> product == "HWE-P1")
            && (caps.batteries <==>
                  && version == "v2" && AtLeastAPI(info.apiVersion, 2, 1)
                  && (product == "HWE-P1" || product == "HWE-KWH1" || product == "HWE-KWH3"
                      || product == "SDM230-wifi" || product == "SDM630-wifi"))
  {
  }

  lemma AtoiDecimal(n: nat)
    requires n <= MaxInt64
    ensures Atoi(Decimal(n)) == Some(n)
  {
    DecimalRoundTrip(n);
    assert IsDigit(Decimal(n)[0]);
  }

  lemma {:induction false} NoDotToSplit(s: string)
    requires '.' !in s
    ensures BeforeDot(s) == (s, None)
  {
    if s != [] { NoDotToSplit(s[1..]); }
  }

  lemma FirstOff(c: char, s: string, rest: string)
    ensures ([c] + s + "." + rest)[0] == c && ([c] + s + "." + rest)[1..] == s + "." + rest
    ensures ([c] + s)[1..] == s
  {
    assert [c] + s + "." + rest == [c] + (s + "." + rest);
  }

  lemma {:induction false} SplitAtDot(s: string, rest: string)
    requires '.' !in s
    ensures BeforeDot(s + "." + rest) == (s, Some(rest))
  {
    var all := s + "." + rest;
    if s == [] {
      assert all[1..] == rest;
    } else {
      SplitAtDot(s[1..], rest);
      assert s == [s[0]] + s[1..];
      FirstOff(s[0], s[1..], rest);
    }
  }

  lemma DigitsHaveNoDot(n: nat)
    ensures '.' !in Decimal(n)
  {
    hide Decimal;
    assert !IsDigit('.');
  }

  /** On a well-formed "vA.B" the comparison is exactly the lexicographic one. */
  lemma AtLeastAPIIsLexicographic(a: nat, b: nat, major: nat, minor: nat)
    requires a <= MaxInt64 && b <= MaxInt64
    ensures AtLeastAPI("v" + Decimal(a) + "." + Decimal(b), major, minor) <==>
            (a > major || (a == major && b >= minor))
    ensures AtLeastAPI("v" + Decimal(a), major, minor) <==> (a > major || (a == major && minor == 0))
  {
    hide BeforeDot, Decimal, Atoi;
    FirstOff('v', Decimal(a), Decimal(b));
    assert "v" == ['v'];
    DigitsHaveNoDot(a);
    DigitsHaveNoDot(b);
    SplitAtDot(Decimal(a), Decimal(b));
    NoDotToSplit(Decimal(a));
    NoDotToSplit(Decimal(b));
    AtoiDecimal(a);
    AtoiDecimal(b);
  }

  /** The capabilities left once an endpoint is switched off; unknown names change nothing. */
  function Without(caps: Capabilities, endpoint: string): Capabilities {
    match endpoint
    case "system" => caps.(system := false)
    case "state" => caps.(state := false)
    case "telegram" => caps.(telegram := false)
    case "batteries" => caps.(batteries := false)
    case _ => caps
  }

  lemma WithoutOnlyShrinks(caps: Capabilities, endpoint: string)
    ensures Without(caps, endpoint).Within(caps)
    ensures Without(Without(caps, endpoint), endpoint) == Without(caps, endpoint)
  {
  }

  /** A connection to one device, pinned to the API generation it answered on. */
  class Client {
    const name: string
    const host: string
    const version: string
    const info: Info
    var caps: Capabilities

    constructor (name: string, host: string, version: string, info: Info)
      ensures this.name == name && this.host == host && this.version == version && this.info == info
      ensures caps == CapabilitiesFor(info, version)
    {
      this.name, this.host, this.version, this.info := name, host, version, info;
      caps := CapabilitiesFor(info, version);
    }

    method Disable(endpoint: string)
      modifies this`caps
      ensures caps == Without(old(caps), endpoint)
    {
      match endpoint {
        case "system" => caps := caps.(system := false);
        case "state" => caps := caps.(state := false);
        case "telegram" => caps := caps.(telegram := false);
        case "batteries" => caps := caps.(batteries := false);
        case _ =>
      }
    }
  }
}
