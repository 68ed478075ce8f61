/** Configuration: filling in derived values, and the rules that accept or refuse it. */
module Config {
  import opened Wrappers
  import opened Homewizard
  import opened Lists

  /** Durations are nanoseconds in a Go int64. */
  const Millisecond := 1_000_000
  const Second := 1_000_000_000
  const MinInterval := 500 * Millisecond

  const APIAuto := "auto"
  const TLSVerify := "verify"
  const TLSInsecure := "insecure"

  /** `hasToken` stands for a token in the config, the environment or an existing token file. */
  datatype Device = Device(
    name: string, host: string, apiVersion: string, hasToken: bool, interval: int, tlsMode: string)

  datatype Poll = Poll(interval: int, systemInterval: int, timeout: int, staleAfter: int)

  datatype Server = Server(listen: string, metricsPath: string)

  datatype Dashboard = Dashboard(enabled: bool, path: string, refresh: int)

  datatype Log = Log(level: string, format: string)

  /** The settings of everything but the devices and their polling. */
  datatype Service = Service(server: Server, dashboard: Dashboard, log: Log)

  /** unicode.IsSpace, as far as strings.TrimSpace uses it. */
  predicate IsSpace(c: char) {
    var n := c as int;
    9 <= n <= 13 || n in {0x20, 0x85, 0xA0, 0x1680, 0x2028, 0x2029, 0x202F, 0x205F, 0x3000} || 0x2000 <= n <= 0x200A
  }

  function TrimLeft(s: string): (r: string)
    ensures r != [] ==> !IsSpace(r[0])
  {
    if s != [] && IsSpace(s[0]) then TrimLeft(s[1..]) else s
  }

  function TrimRight(s: string): (r: string)
    ensures |r| <= |s| && r == s[..|r|]
    ensures r != [] ==> !IsSpace(r[|r| - 1])
  {
    if s != [] && IsSpace(s[|s| - 1]) then TrimRight(s[..|s| - 1]) else s
  }

  function TrimSpace(s: string): string {
    TrimRight(TrimLeft(s))
  }

  predicate StartsAt(s: string, part: string, i: nat) {
    i + |part| <= |s| && s[i..i + |part|] == part
  }

  predicate Contains(s: string, part: string) {
    exists i | 0 <= i <= |s| :: StartsAt(s, part, i)
  }

  function Normalised(d: Device, poll: Poll): Device {
    var host := TrimSpace(d.host);
    var name := TrimSpace(d.name);
    Device(if name == "" then host else name,
           host,
           if d.apiVersion == "" then APIAuto else d.apiVersion,
           d.hasToken,
           if d.interval <= 0 then poll.interval else d.interval,
           if d.tlsMode == "" then TLSVerify else d.tlsMode)
  }

  function NormalisedAll(ds: seq<Device>, poll: Poll): (r: seq<Device>)
    ensures |r| == |ds|
  {
    seq(|ds|, i requires 0 <= i < |ds| => Normalised(ds[i], poll))
  }

  datatype Problem =
    | NoDevices
    | HostMissing(index: nat)
    | HostIsURL(index: nat)
    | DuplicateName(index: nat, first: nat)
    | BadAPIVersion(index: nat)
    | NoToken(index: nat)
    | BadTLSMode(index: nat)
    | IntervalTooShort(index: nat)
    | PollIntervalTooShort
    | SystemIntervalNotPositive
    | TimeoutNotPositive
    | StaleAfterNotPositive
    | StaleAfterTooShort
    | ListenMissing
    | MetricsPathNotRooted
    | DashboardPathNotRooted
    | PathsCollide
    | RefreshNotPositive
    | BadLogLevel
    | BadLogFormat

  /** The first of the devices with this (non-empty) name. */
  function FirstNamed(ds: seq<Device>, name: string): (r: Option<nat>)
    ensures r.Some? ==> r.value < |ds| && ds[r.value].name == name != "" &&
                        forall k | 0 <= k < r.value :: ds[k].name != name
    ensures r.None? ==> name == "" || forall k | 0 <= k < |ds| :: ds[k].name != name
  {
    if ds == [] then None
    else
      var earlier := FirstNamed(ds[..|ds| - 1], name);
      if earlier.Some? then earlier
      else if name != "" && ds[|ds| - 1].name == name then Some(|ds| - 1) else None
  }

  lemma FirstNamedIs(ds: seq<Device>, name: string, r: nat)
    ensures FirstNamed(ds, name) == Some(r) <==>
            r < |ds| && ds[r].name == name != "" && forall k | 0 <= k < r :: ds[k].name != name
  {
  }

  /** The map `seen` holds the first index of every name used so far. */
  ghost predicate Remembers(seen: map<string, nat>, ds: seq<Device>) {
    forall name :: FirstNamed(ds, name) == if name in seen then Some(seen[name]) else None
  }

  lemma NothingSeen()
    ensures forall ds: seq<Device> :: Remembers(map[], ds[..0])
  {
  }

  function HostProblems(d: Device, i: nat): seq<Problem> {
    if d.host == "" then [HostMissing(i)] else if Contains(d.host, "://") then [HostIsURL(i)] else []
  }

  function NameProblems(ds: seq<Device>, i: nat): seq<Problem>
    requires i < |ds|
  {
    match FirstNamed(ds[..i], ds[i].name)
    case Some(first) => [DuplicateName(i, first)]
    case None => []
  }

  function SettingProblems(d: Device, i: nat): seq<Problem> {
    (if d.apiVersion in {APIAuto, APIv1, APIv2} then [] else [BadAPIVersion(i)])
    + (if d.apiVersion == APIv2 && !d.hasToken then [NoToken(i)] else [])
    + (if d.tlsMode in {TLSVerify, TLSInsecure} then [] else [BadTLSMode(i)])
    + (if 0 < d.interval < MinInterval then [IntervalTooShort(i)] else [])
  }

  function ProblemsOf(ds: seq<Device>, i: nat): seq<Problem>
    requires i < |ds|
  {
    HostProblems(ds[i], i) + NameProblems(ds, i) + SettingProblems(ds[i], i)
  }

  lemma SeenBefore(seen: map<string, nat>, ds: seq<Device>, i: nat)
    requires i < |ds| && Remembers(seen, ds[..i])
    ensures var name := ds[i].name;
            NameProblems(ds, i) == if name in seen then [DuplicateName(i, seen[name])] else []
  {
  }

  lemma RememberOneMore(seen: map<string, nat>, ds: seq<Device>, i: nat)
    requires i < |ds| && Remembers(seen, ds[..i])
    ensures var name := ds[i].name;
            Remembers(if name in seen || name == "" then seen else seen[name := i], ds[..i + 1])
  {
  }

  /** What the loop reports for the i-th device. */
  function ProblemsAt(ds: seq<Device>): nat -> seq<Problem> {
    (i: nat) => if i < |ds| then ProblemsOf(ds, i) else []
  }

  function DeviceProblems(ds: seq<Device>): seq<Problem> {
    FlatMap(ProblemsAt(ds), Indices(|ds|))
  }

  function PollProblems(poll: Poll): seq<Problem> {
    (if poll.interval < MinInterval then [PollIntervalTooShort] else [])
    + (if poll.systemInterval <= 0 then [SystemIntervalNotPositive] else [])
    + (if poll.timeout <= 0 then [TimeoutNotPositive] else [])
    + (if poll.staleAfter <= 0 then [StaleAfterNotPositive]
       else if poll.staleAfter <= poll.interval then [StaleAfterTooShort] else [])
  }

  function Problems(ds: seq<Device>, poll: Poll): seq<Problem> {
    (if |ds| == 0 then [NoDevices] else []) + DeviceProblems(ds) + PollProblems(poll)
  }

  predicate Rooted(path: string) {
    path != "" && path[0] == '/'
  }

  function ServerProblems(server: Server): seq<Problem> {
    (if server.listen == "" then [ListenMissing] else [])
    + (if Rooted(server.metricsPath) then [] else [MetricsPathNotRooted])
  }

  function DashboardProblems(dashboard: Dashboard, metricsPath: string): seq<Problem> {
    if !dashboard.enabled then []
    else
      (if Rooted(dashboard.path) then [] else [DashboardPathNotRooted])
      + (if dashboard.path == metricsPath then [PathsCollide] else [])
      + (if dashboard.refresh <= 0 then [RefreshNotPositive] else [])
  }

  function LogProblems(log: Log): seq<Problem> {
    (if log.level in {"debug", "info", "warn", "error"} then [] else [BadLogLevel])
    + (if log.format in {"text", "json"} then [] else [BadLogFormat])
  }

  function ServiceProblems(service: Service): seq<Problem> {
    ServerProblems(service.server) + DashboardProblems(service.dashboard, service.server.metricsPath)
    + LogProblems(service.log)
  }

  predicate Accepted(ds: seq<Device>, poll: Poll) {
    Problems(ds, poll) == []
  }

  class Config {
    var devices: seq<Device>
    var poll: Poll
    var service: Service

    constructor (devices: seq<Device>, poll: Poll, service: Service)
      ensures this.devices == devices && this.poll == poll && this.service == service
    {
      this.devices, this.poll, this.service := devices, poll, service;
    }

    method Normalise()
      modifies this`devices
      ensures devices == NormalisedAll(old(devices), poll)
    {
      hide Normalised;
      for i := 0 to |devices|
        invariant |devices| == |old(devices)|
        invariant devices == NormalisedAll(old(devices), poll)[..i] + old(devices)[i..]
      {
        var d := FillIn(devices[i], poll);
        devices := devices[i := d];
      }
    }

    /** The loop body: the fallbacks of one device. */
    static method FillIn(device: Device, poll: Poll) returns (d: Device)
      ensures d == Normalised(device, poll)
    {
      hide TrimSpace;
      d := device.(host := TrimSpace(device.host));
      d := d.(name := TrimSpace(d.name));
      if d.name == "" {
        d := d.(name := d.host);
      }
      if d.apiVersion == "" {
        d := d.(apiVersion := APIAuto);
      }
      if d.tlsMode == "" {
        d := d.(tlsMode := TLSVerify);
      }
      if d.interval <= 0 {
        d := d.(interval := poll.interval);
      }
    }

    static method CheckHost(d: Device, i: nat) returns (errs: seq<Problem>)
      ensures errs == HostProblems(d, i)
    {
      errs := [];
      if d.host == "" {
        errs := errs + [HostMissing(i)];
      } else if Contains(d.host, "://") {
        errs := errs + [HostIsURL(i)];
      }
    }

    static method CheckSettings(d: Device, i: nat) returns (errs: seq<Problem>)
      ensures errs == SettingProblems(d, i)
    {
      errs := [];
      if d.apiVersion !in {APIAuto, APIv1, APIv2} {
        errs := errs + [BadAPIVersion(i)];
      }
      if d.apiVersion == APIv2 && !d.hasToken {
        errs := errs + [NoToken(i)];
      }
      if d.tlsMode !in {TLSVerify, TLSInsecure} {
        errs := errs + [BadTLSMode(i)];
      }
      if d.interval > 0 && d.interval < MinInterval {
        errs := errs + [IntervalTooShort(i)];
      }
    }

    static method CheckPoll(poll: Poll) returns (errs: seq<Problem>)
      ensures errs == PollProblems(poll)
    {
      errs := [];
      if poll.interval < MinInterval {
        errs := errs + [PollIntervalTooShort];
      }
      if poll.systemInterval <= 0 {
        errs := errs + [SystemIntervalNotPositive];
      }
      if poll.timeout <= 0 {
        errs := errs + [TimeoutNotPositive];
      }
      if poll.staleAfter <= 0 {
        errs := errs + [StaleAfterNotPositive];
      } else if poll.staleAfter <= poll.interval {
        errs := errs + [StaleAfterTooShort];
      }
    }

    static method CheckServer(server: Server) returns (errs: seq<Problem>)
      ensures errs == ServerProblems(server)
    {
      errs := [];
      if server.listen == "" {
        errs := errs + [ListenMissing];
      }
      if !Rooted(server.metricsPath) {
        errs := errs + [MetricsPathNotRooted];
      }
    }

    static method CheckDashboard(dashboard: Dashboard, metricsPath: string) returns (errs: seq<Problem>)
      ensures errs == DashboardProblems(dashboard, metricsPath)
    {
      errs := [];
      if dashboard.enabled {
        if !Rooted(dashboard.path) {
          errs := errs + [DashboardPathNotRooted];
        }
        if dashboard.path == metricsPath {
          errs := errs + [PathsCollide];
        }
        if dashboard.refresh <= 0 {
          errs := errs + [RefreshNotPositive];
        }
      }
    }

    static method CheckLog(log: Log) returns (errs: seq<Problem>)
      ensures errs == LogProblems(log)
    {
      errs := [];
      if log.level !in {"debug", "info", "warn", "error"} {
        errs := errs + [BadLogLevel];
      }
      if log.format !in {"text", "json"} {
        errs := errs + [BadLogFormat];
      }
    }

    /** The loop over the devices, with the names seen so far. */
    static method CheckDevices(devices: seq<Device>) returns (errs: seq<Problem>)
      ensures errs == DeviceProblems(devices)
    {
      errs := [];
      ghost var indices := Indices(|devices|);
      var seen: map<string, nat> := map[];
      hide FlatMap, HostProblems, NameProblems, SettingProblems, Remembers;
      FlatMapEnds(ProblemsAt(devices), indices);
      NothingSeen();
      for i := 0 to |devices|
        invariant Remembers(seen, devices[..i])
        invariant errs == FlatMap(ProblemsAt(devices), indices[..i])
      {
        var d := devices[i];
        RememberOneMore(seen, devices, i);
        SeenBefore(seen, devices, i);
        var hosts := CheckHost(d, i);
        var names: seq<Problem> := [];
        if d.name in seen {
          names := [DuplicateName(i, seen[d.name])];
        } else if d.name != "" {
          seen := seen[d.name := i];
        }
        var settings := CheckSettings(d, i);
        FlatMapStep(ProblemsAt(devices), indices, i);
        errs := errs + (hosts + names + settings);
      }
    }

    /** Reports every problem at once, in the order found; an empty list accepts the configuration. */
    method Validate() returns (errs: seq<Problem>)
      ensures errs == Problems(devices, poll) + ServiceProblems(service)
      ensures errs == [] ==> Accepted(devices, poll)
    {
      hide DeviceProblems, PollProblems, ServerProblems, DashboardProblems, LogProblems;
      errs := [];
      if |devices| == 0 {
        errs := errs + [NoDevices];
      }
      var listed := CheckDevices(devices);
      var timing := CheckPoll(poll);
      errs := errs + listed + timing;
      var server := CheckServer(service.server);
      var dashboard := CheckDashboard(service.dashboard, service.server.metricsPath);
      var log := CheckLog(service.log);
      errs := errs + server + dashboard + log;
    }
  }

  lemma DuplicateInProblemsOf(ds: seq<Device>, i: nat, j: nat, first: nat)
    requires j < |ds|
    ensures DuplicateName(i, first) in ProblemsOf(ds, j) <==>
            i == j && FirstNamed(ds[..i], ds[i].name) == Some(first)
  {
  }

  /** A name is reported exactly when it was used before, and against its first use. */
  lemma DuplicateReported(ds: seq<Device>, poll: Poll, i: nat, first: nat)
    ensures DuplicateName(i, first) in Problems(ds, poll) <==>
            && first < i < |ds|
            && ds[first].name == ds[i].name != ""
            && forall k | 0 <= k < first :: ds[k].name != ds[i].name
  {
    var p := DuplicateName(i, first);
    hide FlatMap;
    FlatMapMember(ProblemsAt(ds), Indices(|ds|), p);
    forall j: nat | j < |ds|
      ensures p in ProblemsOf(ds, j) <==> i == j && FirstNamed(ds[..i], ds[i].name) == Some(first)
    {
      DuplicateInProblemsOf(ds, i, j, first);
    }
    assert p in Problems(ds, poll) <==> p in DeviceProblems(ds) by { assert p !in PollProblems(poll); }
    if i < |ds| {
      FirstNamedIs(ds[..i], ds[i].name, first);
      assert p in ProblemsAt(ds)(Indices(|ds|)[i]) <==> FirstNamed(ds[..i], ds[i].name) == Some(first);
      assert forall k | 0 <= k < i :: ds[..i][k] == ds[k];
    }
  }

  lemma AcceptedDevice(ds: seq<Device>, i: nat)
    requires i < |ds| && ProblemsOf(ds, i) == []
    ensures ds[i].host != ""
    ensures FirstNamed(ds[..i], ds[i].name).None?
    ensures ds[i].interval <= 0 || ds[i].interval >= MinInterval
  {
  }

  lemma AcceptedPoll(poll: Poll)
    requires PollProblems(poll) == []
    ensures poll.interval >= MinInterval && poll.systemInterval > 0 && poll.timeout > 0
    ensures poll.staleAfter > poll.interval
  {
  }

  lemma AcceptedParts(ds: seq<Device>, poll: Poll)
    requires Accepted(ds, poll)
    ensures |ds| > 0 && PollProblems(poll) == []
    ensures forall i | 0 <= i < |ds| :: ProblemsOf(ds, i) == []
  {
    assert DeviceProblems(ds) == [];
    FlatMapEmpty(ProblemsAt(ds), Indices(|ds|));
    forall i | 0 <= i < |ds| ensures ProblemsOf(ds, i) == [] { assert ProblemsAt(ds)(Indices(|ds|)[i]) == []; }
  }

  lemma DistinctDevices(ds: seq<Device>, i: nat, j: nat)
    requires i < j < |ds| && ds[j].name != "" && ProblemsOf(ds, j) == []
    ensures ds[i].name != ds[j].name
  {
  }

  /** What every accepted device satisfies. */
  predicate Usable(d: Device) {
    d.name != "" && d.host != "" && d.interval >= MinInterval
  }

  /** What `normalise` followed by `Validate` guarantees everything downstream. */
  lemma AcceptedConfiguration(raw: seq<Device>, poll: Poll)
    requires Accepted(NormalisedAll(raw, poll), poll)
    ensures |raw| > 0
    ensures forall i | 0 <= i < |raw| :: Usable(NormalisedAll(raw, poll)[i])
    ensures forall i, j | 0 <= i < j < |raw| :: NormalisedAll(raw, poll)[i].name != NormalisedAll(raw, poll)[j].name
    ensures poll.interval >= MinInterval && poll.systemInterval > 0 && poll.timeout > 0
    ensures poll.staleAfter > poll.interval
  {
    var ds := NormalisedAll(raw, poll);
    AcceptedParts(ds, poll);
    AcceptedPoll(poll);
    forall i | 0 <= i < |ds| ensures Usable(ds[i]) {
      AcceptedDevice(ds, i);
    }
    forall i, j | 0 <= i < j < |ds| ensures ds[i].name != ds[j].name {
      assert Usable(ds[j]);
      DistinctDevices(ds, i, j);
    }
  }

  /** With distinct non-empty names the duplicate rule stays silent. */
  lemma DistinctNamesPass(ds: seq<Device>, poll: Poll)
    requires forall i, j | 0 <= i < j < |ds| :: ds[i].name != ds[j].name
    ensures forall i, first :: DuplicateName(i, first) !in Problems(ds, poll)
  {
    forall i: nat, first: nat ensures DuplicateName(i, first) !in Problems(ds, poll) {
      DuplicateReported(ds, poll, i, first);
    }
  }

  // ---- what acceptance and the fallbacks mean, rule by rule ----

  predicate DeviceAccepted(d: Device) {
    && d.host != "" && !Contains(d.host, "://")
    && (d.apiVersion == "auto" || d.apiVersion == "v1" || (d.apiVersion == "v2" && d.hasToken))
    && (d.tlsMode == "verify" || d.tlsMode == "insecure")
    && (d.interval <= 0 || d.interval >= 500_000_000)
  }

  predicate PollAccepted(poll: Poll) {
    poll.interval >= 500_000_000 && poll.systemInterval > 0 && poll.timeout > 0 && poll.staleAfter > 0
    && poll.staleAfter > poll.interval
  }

  predicate ServiceAccepted(service: Service) {
    && service.server.listen != ""
    && service.server.metricsPath != "" && service.server.metricsPath[0] == '/'
    && (service.dashboard.enabled ==>
          && service.dashboard.path != "" && service.dashboard.path[0] == '/'
          && service.dashboard.path != service.server.metricsPath
          && service.dashboard.refresh > 0)
    && (service.log.level == "debug" || service.log.level == "info" || service.log.level == "warn"
        || service.log.level == "error")
    && (service.log.format == "text" || service.log.format == "json")
  }

  lemma DeviceRules(ds: seq<Device>, i: nat)
    requires i < |ds|
    ensures ProblemsOf(ds, i) == [] <==>
            DeviceAccepted(ds[i]) && (ds[i].name == "" || forall k | 0 <= k < i :: ds[k].name != ds[i].name)
  {
    hide Contains;
    var earlier := ds[..i];
    assert FirstNamed(earlier, ds[i].name).None? <==>
      ds[i].name == "" || forall k | 0 <= k < i :: ds[k].name != ds[i].name by {
      assert forall k | 0 <= k < i :: earlier[k] == ds[k];
    }
  }

  lemma PollRules(poll: Poll)
    ensures PollProblems(poll) == [] <==> PollAccepted(poll)
  {
  }

  lemma ServiceRules(service: Service)
    ensures ServiceProblems(service) == [] <==> ServiceAccepted(service)
  {
  }

  /** Validate reports nothing if and only if every single rule is met. */
  lemma AcceptedExactly(ds: seq<Device>, poll: Poll, service: Service)
    ensures Problems(ds, poll) + ServiceProblems(service) == [] <==>
            && |ds| > 0 && PollAccepted(poll) && ServiceAccepted(service)
            && (forall i | 0 <= i < |ds| :: DeviceAccepted(ds[i]))
            && (forall i, j | 0 <= i < j < |ds| :: ds[j].name != "" ==> ds[i].name != ds[j].name)
  {
    hide DeviceAccepted, PollAccepted, ServiceAccepted, PollProblems, ServiceProblems, ProblemsOf, FlatMap;
    PollRules(poll);
    ServiceRules(service);
    FlatMapEmpty(ProblemsAt(ds), Indices(|ds|));
    forall i: nat | i < |ds|
      ensures ProblemsAt(ds)(Indices(|ds|)[i]) == [] <==>
              DeviceAccepted(ds[i]) && (ds[i].name == "" || forall k | 0 <= k < i :: ds[k].name != ds[i].name)
    {
      DeviceRules(ds, i);
    }
  }

  predicate AllSpace(s: string) {
    forall i | 0 <= i < |s| :: IsSpace(s[i])
  }

  lemma {:induction false} LeftCut(s: string) returns (cut: string)
    ensures s == cut + TrimLeft(s) && AllSpace(cut)
  {
    cut := "";
    if s != [] && IsSpace(s[0]) {
      var rest := LeftCut(s[1..]);
      cut := [s[0]] + rest;
    }
  }

  lemma {:induction false} RightCut(s: string) returns (cut: string)
    ensures s == TrimRight(s) + cut && AllSpace(cut)
    decreases |s|
  {
    cut := "";
    if s != [] && IsSpace(s[|s| - 1]) {
      var rest := RightCut(s[..|s| - 1]);
      cut := rest + [s[|s| - 1]];
    }
  }

  /** Trimming takes white space off both ends and nothing else. */
  lemma TrimSpaceMeans(s: string) returns (before: string, after: string)
    ensures s == before + TrimSpace(s) + after && AllSpace(before) && AllSpace(after)
    ensures TrimSpace(s) != "" ==> !IsSpace(TrimSpace(s)[0]) && !IsSpace(TrimSpace(s)[|TrimSpace(s)| - 1])
  {
    before := LeftCut(s);
    after := RightCut(TrimLeft(s));
  }

  /** The fallback of every derived value; what was given stays. */
  lemma NormalisedMeans(d: Device, poll: Poll)
    ensures var n := Normalised(d, poll);
            && n.host == TrimSpace(d.host)
            && n.name == (if TrimSpace(d.name) != "" then TrimSpace(d.name) else TrimSpace(d.host))
            && (d.apiVersion == "" ==> n.apiVersion == "auto") && (d.apiVersion != "" ==> n.apiVersion == d.apiVersion)
            && (d.tlsMode == "" ==> n.tlsMode == "verify") && (d.tlsMode != "" ==> n.tlsMode == d.tlsMode)
            && (d.interval <= 0 ==> n.interval == poll.interval) && (d.interval > 0 ==> n.interval == d.interval)
            && n.hasToken == d.hasToken
  {
    hide TrimSpace;
  }
}
