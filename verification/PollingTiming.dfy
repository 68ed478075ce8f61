/** When polls happen: backoff in closed form, and the minimum distance between two polls of a device. */
module PollingTiming {
  import opened Wrappers
  import opened Homewizard
  import opened Snapshot
  import opened Polling
  import Config

  function Min(a: int, b: int): int {
    if a <= b then a else b
  }

  function Pow2(k: nat): (r: int)
    ensures r > 0
  {
    if k == 0 then 1 else 2 * Pow2(k - 1)
  }

  // ---- doubling ----

  /** min(backoffMin * 2^k, backoffMax) */
  function ClosedForm(low: int, high: int, k: nat): int {
    Min(low * Pow2(k), high)
  }

  /** What k doublings of the program's int64 variable give. */
  function Doubled(low: int, high: int, k: nat): int {
    if k == 0 then low else NextBackoff(Doubled(low, high, k - 1), high)
  }

  lemma {:induction false} DoublingMatches(low: int, high: int, k: nat)
    requires 0 < low <= high < 0x4000_0000_0000_0000
    ensures Doubled(low, high, k) == ClosedForm(low, high, k)
    ensures low <= ClosedForm(low, high, k) <= high
  {
    if k > 0 {
      DoublingMatches(low, high, k - 1);
      assert low * Pow2(k) == 2 * (low * Pow2(k - 1));
    } else {
      assert low * Pow2(0) == low;
    }
  }

  lemma {:induction false} Pow2Grows(k: nat, n: nat)
    requires k <= n
    ensures Pow2(k) <= Pow2(n)
    decreases n
  {
    if k < n { Pow2Grows(k, n - 1); }
  }

  /** The doubling is exact for ever precisely when backoffMax is below 2^62. */
  lemma DoublingIsExact(low: int, high: int)
    requires 0 < low <= high <= MaxInt64
    ensures (forall k: nat :: Doubled(low, high, k) == ClosedForm(low, high, k)) <==> high < 0x4000_0000_0000_0000
  {
    if high < 0x4000_0000_0000_0000 {
      forall k: nat ensures Doubled(low, high, k) == ClosedForm(low, high, k) { DoublingMatches(low, high, k); }
    } else {
      assert Pow2(62) == 0x4000_0000_0000_0000 by {
        assert Pow2(10) == 0x400;
        assert Pow2(20) == 0x10_0000;
        assert Pow2(30) == 0x4000_0000;
        assert Pow2(40) == 0x100_0000_0000;
        assert Pow2(50) == 0x4_0000_0000_0000;
        assert Pow2(60) == 0x1000_0000_0000_0000;
      }
      assert low * Pow2(62) >= 0x4000_0000_0000_0000;
      assert low * Pow2(63) > 0;
      if Doubled(low, high, 62) == ClosedForm(low, high, 62) {
        assert Doubled(low, high, 63) < 0;
        assert Doubled(low, high, 63) != ClosedForm(low, high, 63);
      }
    }
  }

  /** With backoffMin = backoffMax = 2^62 the second wait is negative and every later one is zero. */
  lemma DoublingOverflows()
    ensures var big := 0x4000_0000_0000_0000;
            NextBackoff(big, big) == MinInt64 && NextBackoff(MinInt64, big) == 0 && NextBackoff(0, big) == 0
  {
  }

  // ---- backoff along a run ----

  predicate Fails(s: Settings, l: LoopState, p: Pass) {
    !p.cancelled && Attempt(s, l, p).1.Some?
  }

  /** How many passes in a row have failed, up to the end of the run. */
  function Failures(s: Settings, record: Option<Device>, passes: seq<Pass>): nat {
    if passes == [] then 0
    else
      var earlier, last := passes[..|passes| - 1], passes[|passes| - 1];
      if last.cancelled then Failures(s, record, earlier)
      else if Fails(s, AfterPasses(s, record, earlier), last) then Failures(s, record, earlier) + 1
      else 0
  }

  lemma AttemptKeepsBackoff(s: Settings, l: LoopState, p: Pass)
    ensures Attempt(s, l, p).0.backoff == l.backoff
  {
  }

  /** On every run the backoff is a function of the number of consecutive failures alone. */
  lemma {:induction false} BackoffCountsFailures(s: Settings, record: Option<Device>, passes: seq<Pass>)
    ensures AfterPasses(s, record, passes).backoff
         == Doubled(s.backoffMin, s.backoffMax, Failures(s, record, passes))
  {
    if passes != [] {
      var earlier := passes[..|passes| - 1];
      BackoffCountsFailures(s, record, earlier);
      AttemptKeepsBackoff(s, AfterPasses(s, record, earlier), passes[|passes| - 1]);
    }
  }

  lemma FailedWait(s: Settings, l: LoopState, p: Pass)
    requires 0 < l.backoff < 0x4000_0000_0000_0000 && Allowed(s, l, p) && Fails(s, l, p)
    ensures l.backoff <= PassSpec(s, l, p).wakeAt - p.end <= l.backoff + l.backoff / 50
  {
  }

  lemma WaitIsDoubled(s: Settings, record: Option<Device>, passes: seq<Pass>)
    requires 0 < s.backoffMin <= s.backoffMax < 0x4000_0000_0000_0000
    requires Admissible(s, record, passes) && passes != []
    requires Fails(s, AfterPasses(s, record, passes[..|passes| - 1]), passes[|passes| - 1])
    ensures var k := Failures(s, record, passes[..|passes| - 1]);
            var b := Doubled(s.backoffMin, s.backoffMax, k);
            && Failures(s, record, passes) == k + 1
            && s.backoffMin <= b <= s.backoffMax
            && b <= AfterPasses(s, record, passes).wakeAt - passes[|passes| - 1].end <= b + b / 50
  {
    var earlier, last := passes[..|passes| - 1], passes[|passes| - 1];
    assert Allowed(s, AfterPasses(s, record, earlier), passes[|passes| - 1]);
    BackoffCountsFailures(s, record, earlier);
    DoublingMatches(s.backoffMin, s.backoffMax, Failures(s, record, earlier));
    FailedWait(s, AfterPasses(s, record, earlier), last);
  }

  /** After the k-th failure in a row the wait is in [B, B + B/50] with B = min(backoffMin * 2^(k-1), backoffMax). */
  lemma WaitAfterFailure(s: Settings, record: Option<Device>, passes: seq<Pass>)
    requires 0 < s.backoffMin <= s.backoffMax < 0x4000_0000_0000_0000
    requires Admissible(s, record, passes) && passes != []
    requires Fails(s, AfterPasses(s, record, passes[..|passes| - 1]), passes[|passes| - 1])
    ensures var k := Failures(s, record, passes);
            k > 0 &&
            var b := ClosedForm(s.backoffMin, s.backoffMax, k - 1);
            && s.backoffMin <= b <= s.backoffMax
            && b <= AfterPasses(s, record, passes).wakeAt - passes[|passes| - 1].end <= b + b / 50
  {
    WaitIsDoubled(s, record, passes);
    DoublingMatches(s.backoffMin, s.backoffMax, Failures(s, record, passes) - 1);
  }

  /** Any success brings the backoff back to its minimum. */
  lemma SuccessResets(s: Settings, l: LoopState, p: Pass)
    requires Attempt(s, l, p).1.None? && !p.cancelled
    ensures PassSpec(s, l, p).backoff == s.backoffMin
  {
  }

  // ---- spacing ----

  /** The largest wait after a success still fits in an int64. */
  predicate IntervalFits(s: Settings) {
    s.interval + s.interval / 50 <= MaxInt64
  }

  lemma PassWaitsLongEnough(s: Settings, record: Option<Device>, passes: seq<Pass>)
    requires Config.MinInterval <= s.interval && IntervalFits(s)
    requires Config.MinInterval <= s.backoffMin <= s.backoffMax < 0x4000_0000_0000_0000
    requires Admissible(s, record, passes) && passes != [] && !passes[|passes| - 1].cancelled
    ensures AfterPasses(s, record, passes).wakeAt >= passes[|passes| - 1].start + Config.MinInterval
  {
    var earlier, last := passes[..|passes| - 1], passes[|passes| - 1];
    var l := AfterPasses(s, record, earlier);
    assert Allowed(s, l, passes[|passes| - 1]);
    BackoffCountsFailures(s, record, earlier);
    DoublingMatches(s.backoffMin, s.backoffMax, Failures(s, record, earlier));
    var delay := Delay(s, l, last);
    assert Config.MinInterval <= delay && delay + delay / 50 <= MaxInt64;
  }

  lemma {:induction false} PollsAreSpaced(s: Settings, record: Option<Device>, passes: seq<Pass>, i: nat, j: nat)
    requires Config.MinInterval <= s.interval && IntervalFits(s)
    requires Config.MinInterval <= s.backoffMin <= s.backoffMax < 0x4000_0000_0000_0000
    requires Admissible(s, record, passes) && i < j < |passes|
    ensures passes[j].start - passes[i].start >= Config.MinInterval
    decreases j
  {
    var before := passes[..j];
    assert before[|before| - 1] == passes[j - 1];
    forall k | 0 <= k < j ensures Allowed(s, AfterPasses(s, record, before[..k]), before[k]) {
      assert before[..k] == passes[..k];
    }
    assert Allowed(s, AfterPasses(s, record, passes[..j]), passes[j]);
    CancelledIsLast(s, record, passes, j - 1);
    PassWaitsLongEnough(s, record, before);
    if i < j - 1 { PollsAreSpaced(s, record, passes, i, j - 1); }
  }

  predicate Spaced(passes: seq<Pass>) {
    forall i, j | 0 <= i < j < |passes| :: passes[j].start - passes[i].start >= Config.MinInterval
  }

  /** The loop settings of device i of an accepted configuration, run with the default backoff. */
  function ConfiguredSettings(raw: seq<Config.Device>, poll: Config.Poll, i: nat): Settings
    requires i < |raw|
  {
    var d := Config.NormalisedAll(raw, poll)[i];
    Settings(d.name, d.host, if d.interval > 0 then d.interval else poll.interval, poll.systemInterval,
             DefaultBackoffMin, DefaultBackoffMax)
  }

  /** A poller built without backoff options runs the devices of a configuration with these settings. */
  method DefaultPoller(raw: seq<Config.Device>, poll: Config.Poll, store: Store) returns (p: Poller)
    ensures p.store == store
    ensures forall i | 0 <= i < |raw| ::
              p.SettingsFor(Config.NormalisedAll(raw, poll)[i]) == ConfiguredSettings(raw, poll, i)
    ensures p.backoffMin == 5_000_000_000 && p.backoffMax == 120_000_000_000
  {
    p := new Poller.New(Options(poll, 0, 0), store);
  }

  /** For every accepted configuration two polls of one device are at least MinInterval apart, on every run. */
  lemma AcceptedConfigurationIsSpaced(raw: seq<Config.Device>, poll: Config.Poll, d: nat,
                                      record: Option<Device>, passes: seq<Pass>, i: nat, j: nat)
    requires Config.Accepted(Config.NormalisedAll(raw, poll), poll) && d < |raw|
    requires IntervalFits(ConfiguredSettings(raw, poll, d))
    requires Admissible(ConfiguredSettings(raw, poll, d), record, passes) && i < j < |passes|
    ensures passes[j].start - passes[i].start >= Config.MinInterval == 500_000_000
  {
    Config.AcceptedConfiguration(raw, poll);
    assert Config.Usable(Config.NormalisedAll(raw, poll)[d]);
    PollsAreSpaced(ConfiguredSettings(raw, poll, d), record, passes, i, j);
  }

  /** A pass in which everything but the connection and the measurement fails, all at one moment. */
  function InstantPass(jitter: int): Pass {
    Pass(1, Ok((APIv1, EmptyInfo)), Ok(EmptyMeasurement), 1, Err(OtherFailure), 1, 1,
         Err(OtherFailure), 1, Err(OtherFailure), 1, 1, false, jitter)
  }

  lemma InstantPassAllowed(s: Settings, l: LoopState, jitter: int)
    requires Config.MinInterval <= s.interval && 0 <= jitter <= s.interval / 50
    requires l.running && l.now <= 1 && l.wakeAt <= 1
    ensures Allowed(s, l, InstantPass(jitter))
  {
  }

  /** After a success whose wait overflows, the next pass may start at the very moment this one ended. */
  lemma OverflowingWait(s: Settings, l: LoopState)
    requires Config.MinInterval <= s.interval <= MaxInt64 && !IntervalFits(s)
    ensures var l' := PassSpec(s, l, InstantPass(s.interval / 50));
            l'.running == l.running && l'.now == 1 && l'.wakeAt < 1
  {
  }

  lemma TwoAtOnce(s: Settings, record: Option<Device>) returns (passes: seq<Pass>)
    requires Config.MinInterval <= s.interval <= MaxInt64 && !IntervalFits(s)
    ensures |passes| == 2 && Admissible(s, record, passes)
    ensures passes[1].start - passes[0].start < Config.MinInterval
  {
    var first, second := InstantPass(s.interval / 50), InstantPass(0);
    passes := [first, second];
    assert passes[..0] == [] && passes[..1] == [first] && [first][..0] == [];
    var l0 := Initial(s, record);
    InstantPassAllowed(s, l0, s.interval / 50);
    OverflowingWait(s, l0);
    InstantPassAllowed(s, PassSpec(s, l0, first), 0);
    assert AfterPasses(s, record, [first]) == PassSpec(s, l0, first);
  }

  /**
   The spacing holds on every run exactly when the interval leaves room for its own jitter: beyond
   that the int64 sum of interval and jitter can be negative, and the timer fires at once.
   */
  lemma SpacingNeedsRoomForJitter(s: Settings, record: Option<Device>)
    requires Config.MinInterval <= s.interval <= MaxInt64
    requires Config.MinInterval <= s.backoffMin <= s.backoffMax < 0x4000_0000_0000_0000
    ensures (forall passes: seq<Pass> | Admissible(s, record, passes) :: Spaced(passes)) <==> IntervalFits(s)
  {
    if IntervalFits(s) {
      forall passes: seq<Pass> | Admissible(s, record, passes) ensures Spaced(passes) {
        forall i, j | 0 <= i < j < |passes| ensures passes[j].start - passes[i].start >= Config.MinInterval {
          PollsAreSpaced(s, record, passes, i, j);
        }
      }
    } else {
      var passes := TwoAtOnce(s, record);
      assert !Spaced(passes);
    }
  }
}
