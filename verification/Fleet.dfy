/**
 All the loops of a configuration over one store, every loop and every update interleaved step by step: with
 distinct names each loop runs as if it were alone.
 */
module Fleet {
  import opened Wrappers
  import opened Homewizard
  import opened Snapshot
  import opened Polling
  import opened PollingRuns
  import opened PollingSteps
  import Protocol = SnapshotProtocol
  import PollingTiming
  import Config

  // ---- who published what ----

  /** An update and the loop it came from. */
  datatype Tagged = Tagged(loop: nat, mutation: Mutation)

  predicate DistinctNames(ss: seq<Settings>) {
    forall i, j | 0 <= i < j < |ss| :: ss[i].name != ss[j].name
  }

  /** Every tag names a loop. */
  predicate FromLoops(ss: seq<Settings>, trace: seq<Tagged>) {
    forall k | 0 <= k < |trace| :: trace[k].loop < |ss|
  }

  /** The updates as the store sees them: by name. */
  function Changes(ss: seq<Settings>, trace: seq<Tagged>): (log: seq<Change>)
    requires FromLoops(ss, trace)
    ensures |log| == |trace|
  {
    seq(|trace|, k requires 0 <= k < |trace| => Change(ss[trace[k].loop].name, trace[k].mutation))
  }

  /** The updates of one loop, in order. */
  function Mine(trace: seq<Tagged>, i: nat): seq<Mutation> {
    if trace == [] then []
    else
      var earlier, last := Mine(trace[..|trace| - 1], i), trace[|trace| - 1];
      if last.loop == i then earlier + [last.mutation] else earlier
  }

  lemma MineStep(trace: seq<Tagged>, u: Tagged, i: nat)
    ensures Mine(trace + [u], i) == if u.loop == i then Mine(trace, i) + [u.mutation] else Mine(trace, i)
  {
    assert (trace + [u])[..|trace|] == trace;
  }

  lemma ChangesStep(ss: seq<Settings>, trace: seq<Tagged>, u: Tagged)
    requires FromLoops(ss, trace) && u.loop < |ss|
    ensures FromLoops(ss, trace + [u])
    ensures Changes(ss, trace + [u]) == Changes(ss, trace) + [Change(ss[u.loop].name, u.mutation)]
  {
  }

  /** With distinct names, the updates under a device's name are those of its own loop, in any interleaving. */
  lemma {:induction false} OwnIsMine(ss: seq<Settings>, trace: seq<Tagged>, i: nat)
    requires DistinctNames(ss) && FromLoops(ss, trace) && i < |ss|
    ensures Own(Changes(ss, trace), ss[i].name) == Mine(trace, i)
  {
    if trace != [] {
      var init, log := trace[..|trace| - 1], Changes(ss, trace);
      OwnIsMine(ss, init, i);
      assert log[..|log| - 1] == Changes(ss, init);
      assert log[|log| - 1].name == ss[i].name <==> trace[|trace| - 1].loop == i;
    }
  }

  /** Whatever is interleaved, every device's record is the replay of its own loop's updates. */
  ghost predicate OwnRecords(ss: seq<Settings>) {
    forall trace, i | FromLoops(ss, trace) && 0 <= i < |ss| ::
      Find(Fold(Changes(ss, trace)), ss[i].name) == Replay(ss[i].name, Mine(trace, i))
  }

  /** Two loops with one name: an update of the second creates the first one's record. */
  lemma SharedName(ss: seq<Settings>, i: nat, j: nat)
    requires i < j < |ss| && ss[i].name == ss[j].name
    ensures var trace := [Tagged(j, [])];
            && FromLoops(ss, trace)
            && Find(Fold(Changes(ss, trace)), ss[i].name).Some? && Replay(ss[i].name, Mine(trace, i)).None?
  {
    var trace := [Tagged(j, [])];
    assert trace[..0] == [] && Changes(ss, trace) == [Change(ss[i].name, [])];
    assert [Change(ss[i].name, [])][..0] == [];
  }

  /** Every record is its own loop's in every interleaving, if and only if no two loops share a name. */
  lemma RecordsAreOwnExactlyWithDistinctNames(ss: seq<Settings>)
    ensures OwnRecords(ss) <==> DistinctNames(ss)
  {
    if DistinctNames(ss) {
      forall trace, i | FromLoops(ss, trace) && 0 <= i < |ss|
        ensures Find(Fold(Changes(ss, trace)), ss[i].name) == Replay(ss[i].name, Mine(trace, i))
      {
        OwnIsMine(ss, trace, i);
        RecordDependsOnOwnUpdates(Changes(ss, trace), ss[i].name);
      }
    } else {
      var i, j :| 0 <= i < j < |ss| && ss[i].name == ss[j].name;
      SharedName(ss, i, j);
    }
  }

  // ---- the composed system ----

  /** The store, the loops, and as history the loop behind every published update. */
  datatype World = World(memory: Protocol.Memory, runners: seq<Runner>, trace: seq<Tagged>)

  /** A step inside the store, or of loop i; loops and readers are threads of the store. */
  datatype Step = Inside(step: Protocol.Step) | Loop(i: nat, begun: Pass)

  ghost predicate Start(ss: seq<Settings>, w: World) {
    && Protocol.Init(w.memory) && w.trace == [] && |w.runners| == |ss|
    && forall i | 0 <= i < |ss| :: w.runners[i] == Runner(Unregistered, Initial(ss[i], None), [])
  }

  /** What a reader sees of one device at this moment. */
  function Shown(w: World, name: string): Option<Device>
    requires w.memory.Readable(w.memory.current)
  {
    Find(w.memory.Show(w.memory.current), name)
  }

  /** Update is called by the loops alone, and a loop goes on when its Update has returned. */
  predicate CanStep(ss: seq<Settings>, w: World, step: Step) {
    match step
    case Inside(st) => Protocol.Enabled(w.memory, st) && !st.Call?
    case Loop(i, q) =>
      && i < |ss| && i < |w.runners|
      && w.memory.PhaseOf(i).Idle? && w.memory.Readable(w.memory.current)
      && MayAct(ss[i], w.runners[i], q)
  }

  function OutcomeOf(ss: seq<Settings>, w: World, i: nat, q: Pass): Outcome
    requires CanStep(ss, w, Loop(i, q))
  {
    Act(ss[i], w.runners[i], q, Shown(w, ss[i].name))
  }

  function Then(ss: seq<Settings>, w: World, step: Step): World
    requires CanStep(ss, w, step)
  {
    match step
    case Inside(st) =>
      w.(memory := Protocol.Exec(w.memory, st),
         trace := if st.Publish? then w.trace + [Tagged(st.t, w.memory.PhaseOf(st.t).change.mutation)] else w.trace)
    case Loop(i, q) =>
      var out := OutcomeOf(ss, w, i, q);
      w.(runners := w.runners[i := out.runner],
         memory := match out.update
                   case None => w.memory
                   case Some(m) => Protocol.Exec(w.memory, Protocol.Call(i, Change(ss[i].name, m))))
  }

  // ---- the invariant ----

  /** The update a loop has handed over and the store has not published yet. */
  function Pending(phase: Protocol.Phase): seq<Mutation> {
    if phase.Idle? || phase.Stored? then [] else [phase.change.mutation]
  }

  /** Every update in progress belongs to the loop that called Update. */
  ghost predicate CallsInv(ss: seq<Settings>, w: World) {
    forall t: nat | !w.memory.PhaseOf(t).Idle? :: t < |ss| && w.memory.PhaseOf(t).change.name == ss[t].name
  }

  ghost predicate TraceInv(ss: seq<Settings>, w: World) {
    FromLoops(ss, w.trace) && Changes(ss, w.trace) == w.memory.log
  }

  /** Published and pending updates of a loop are together all it has written. */
  ghost predicate LoopsInv(ss: seq<Settings>, w: World) {
    && |w.runners| == |ss|
    && forall i | 0 <= i < |ss| ::
         && RunnerInv(ss[i], w.runners[i])
         && Mine(w.trace, i) + Pending(w.memory.PhaseOf(i)) == Written(ss[i], w.runners[i])
  }

  ghost predicate WorldInv(ss: seq<Settings>, w: World) {
    Protocol.Inv(w.memory) && CallsInv(ss, w) && TraceInv(ss, w) && LoopsInv(ss, w)
  }

  lemma CurrentIsFold(m: Protocol.Memory)
    requires Protocol.Inv(m)
    ensures m.Readable(m.current) && m.Show(m.current) == Fold(m.log)
  {
  }

  lemma RecordIsReplay(s: Settings, r: Runner)
    requires RunnerInv(s, r)
    ensures r.own.record == Replay(s.name, Written(s, r))
  {
  }

  /** What the store shows of a device is what its loop has published. */
  lemma ShownIsMine(ss: seq<Settings>, w: World, i: nat)
    requires DistinctNames(ss) && WorldInv(ss, w) && i < |ss|
    ensures w.memory.Readable(w.memory.current)
    ensures Shown(w, ss[i].name) == Replay(ss[i].name, Mine(w.trace, i))
    ensures w.memory.PhaseOf(i).Idle? ==> Shown(w, ss[i].name) == w.runners[i].own.record
  {
    hide RunnerInv, Written;
    OwnIsMine(ss, w.trace, i);
    RecordDependsOnOwnUpdates(w.memory.log, ss[i].name);
    CurrentIsFold(w.memory);
    RecordIsReplay(ss[i], w.runners[i]);
    if w.memory.PhaseOf(i).Idle? { assert Mine(w.trace, i) + [] == Mine(w.trace, i); }
  }

  // ---- the invariant holds throughout ----

  /** A step inside the store moves one thread through Update without changing what it was called with. */
  lemma PhasesMove(m: Protocol.Memory, st: Protocol.Step, t: nat)
    requires Protocol.Enabled(m, st) && !st.Call?
    ensures var before, after := m.PhaseOf(t), Protocol.Exec(m, st).PhaseOf(t);
            && (!after.Idle? ==> !before.Idle? && after.change == before.change)
            && (if st.Publish? && st.t == t then Pending(before) == [before.change.mutation] && Pending(after) == []
                else Pending(after) == Pending(before))
  {
  }

  lemma LogMoves(m: Protocol.Memory, st: Protocol.Step)
    requires Protocol.Enabled(m, st)
    ensures Protocol.Exec(m, st).log == if st.Publish? then m.log + [m.PhaseOf(st.t).change] else m.log
    ensures st.Publish? ==> !m.PhaseOf(st.t).Idle?
  {
  }

  lemma InsideKeepsTrace(ss: seq<Settings>, w: World, st: Protocol.Step)
    requires WorldInv(ss, w) && CanStep(ss, w, Inside(st))
    ensures TraceInv(ss, Then(ss, w, Inside(st)))
  {
    hide Protocol.Inv, LoopsInv, Protocol.Exec, Protocol.Enabled, Changes;
    LogMoves(w.memory, st);
    if st.Publish? { ChangesStep(ss, w.trace, Tagged(st.t, w.memory.PhaseOf(st.t).change.mutation)); }
  }

  lemma InsideKeeps(ss: seq<Settings>, w: World, st: Protocol.Step)
    requires WorldInv(ss, w) && CanStep(ss, w, Inside(st))
    ensures WorldInv(ss, Then(ss, w, Inside(st)))
  {
    hide Protocol.Inv, Protocol.Exec, Protocol.Enabled, RunnerInv, Written, Pending, TraceInv;
    var w' := Then(ss, w, Inside(st));
    Protocol.StepKeepsInv(w.memory, st);
    InsideKeepsTrace(ss, w, st);
    forall t: nat | !w'.memory.PhaseOf(t).Idle?
      ensures t < |ss| && w'.memory.PhaseOf(t).change.name == ss[t].name
    {
      PhasesMove(w.memory, st, t);
    }
    forall i | 0 <= i < |ss|
      ensures Mine(w'.trace, i) + Pending(w'.memory.PhaseOf(i)) == Written(ss[i], w'.runners[i])
    {
      PhasesMove(w.memory, st, i);
      if st.Publish? {
        LogMoves(w.memory, st);
        MineStep(w.trace, Tagged(st.t, w.memory.PhaseOf(st.t).change.mutation), i);
      }
    }
  }

  lemma Calls(m: Protocol.Memory, t: nat, change: Change)
    requires m.PhaseOf(t).Idle?
    ensures Protocol.Enabled(m, Protocol.Call(t, change))
    ensures var m' := Protocol.Exec(m, Protocol.Call(t, change));
            && m'.log == m.log && m'.PhaseOf(t) == Protocol.Waiting(change)
            && forall u | u != t :: m'.PhaseOf(u) == m.PhaseOf(u)
  {
  }

  lemma LoopKeeps(ss: seq<Settings>, w: World, i: nat, q: Pass)
    requires DistinctNames(ss) && WorldInv(ss, w) && CanStep(ss, w, Loop(i, q))
    ensures WorldInv(ss, Then(ss, w, Loop(i, q)))
  {
    hide Protocol.Inv, Protocol.Exec, Protocol.Enabled, RunnerInv, Written, Act, MayAct, Changes, Mine;
    ShownIsMine(ss, w, i);
    ActKeeps(ss[i], w.runners[i], q, Shown(w, ss[i].name));
    var out, w' := OutcomeOf(ss, w, i, q), Then(ss, w, Loop(i, q));
    assert RunnerInv(ss[i], out.runner)
        && Written(ss[i], out.runner) == Written(ss[i], w.runners[i]) + Handed(out.update);
    if out.update.Some? {
      var change := Change(ss[i].name, out.update.value);
      Calls(w.memory, i, change);
      Protocol.StepKeepsInv(w.memory, Protocol.Call(i, change));
    }
    assert w'.trace == w.trace && w'.memory.log == w.memory.log;
    forall k | 0 <= k < |ss|
      ensures RunnerInv(ss[k], w'.runners[k])
      ensures Mine(w'.trace, k) + Pending(w'.memory.PhaseOf(k)) == Written(ss[k], w'.runners[k])
    {
      assert RunnerInv(ss[k], w.runners[k]);
    }
  }

  lemma StartHolds(ss: seq<Settings>, w: World)
    requires Start(ss, w)
    ensures WorldInv(ss, w)
  {
    assert Changes(ss, []) == [];
    assert w.memory.Show(None) == Fold([]);
  }

  ghost predicate Moves(ss: seq<Settings>, w: World, w': World) {
    exists step :: CanStep(ss, w, step) && w' == Then(ss, w, step)
  }

  /** A run of the whole: any interleaving of loops, of the steps inside the store, and of readers. */
  ghost predicate Run(ss: seq<Settings>, run: seq<World>) {
    && |run| > 0
    && Start(ss, run[0])
    && forall n | 0 <= n < |run| - 1 :: Moves(ss, run[n], run[n + 1])
  }

  lemma {:induction false} RunKeepsInv(ss: seq<Settings>, run: seq<World>, n: nat)
    requires DistinctNames(ss) && Run(ss, run) && n < |run|
    ensures WorldInv(ss, run[n])
    decreases n
  {
    hide WorldInv;
    if n == 0 {
      StartHolds(ss, run[0]);
    } else {
      RunKeepsInv(ss, run, n - 1);
      assert Moves(ss, run[n - 1], run[n - 1 + 1]);
      var step :| CanStep(ss, run[n - 1], step) && run[n] == Then(ss, run[n - 1], step);
      match step
      case Inside(st) => InsideKeeps(ss, run[n - 1], st);
      case Loop(i, q) => LoopKeeps(ss, run[n - 1], i, q);
    }
  }

  // ---- what follows for whole runs ----

  /**
   In every state of every run: each loop is on an admissible run of its own and in step with it; what the
   store shows of its device is what it has published, all of it but at most the update in progress; and
   when it is about to act, what it reads from the store is the record it has built itself.
   */
  lemma EveryLoopRunsAlone(ss: seq<Settings>, run: seq<World>, n: nat, i: nat)
    requires DistinctNames(ss) && Run(ss, run) && n < |run| && i < |ss|
    ensures var w := run[n];
            && |w.runners| == |ss| && w.memory.Readable(w.memory.current)
            && var s, r := ss[i], w.runners[i];
            && CanRun(s, r.passes) && OnCourse(s, r)
            && Shown(w, s.name) == Replay(s.name, Mine(w.trace, i))
            && Mine(w.trace, i) + Pending(w.memory.PhaseOf(i)) == Written(s, r)
            && (w.memory.PhaseOf(i).Idle? ==> Shown(w, s.name) == r.own.record)
  {
    hide Protocol.Inv, CanRun, Written, OnCourse;
    RunKeepsInv(ss, run, n);
    ShownIsMine(ss, run[n], i);
  }

  /** Between two passes the store shows the record the loop would have if it were alone. */
  lemma ShownBetweenPasses(ss: seq<Settings>, run: seq<World>, n: nat, i: nat)
    requires DistinctNames(ss) && Run(ss, run) && n < |run| && i < |ss|
    requires |run[n].runners| == |ss| && run[n].runners[i].pc.Resting? && run[n].memory.PhaseOf(i).Idle?
    ensures run[n].memory.Readable(run[n].memory.current)
    ensures Shown(run[n], ss[i].name) == Final(ss[i], run[n].runners[i].passes).record
    ensures CanRun(ss[i], run[n].runners[i].passes)
  {
    EveryLoopRunsAlone(ss, run, n, i);
  }

  /** What a reader sees of a device between passes is stale once its loop's last success is, and not before. */
  lemma ShownFreshness(ss: seq<Settings>, run: seq<World>, n: nat, i: nat, now: Instant, staleAfter: int)
    requires DistinctNames(ss) && Run(ss, run) && n < |run| && i < |ss|
    requires |run[n].runners| == |ss| && run[n].runners[i].pc.Resting? && run[n].memory.PhaseOf(i).Idle?
    ensures run[n].memory.Readable(run[n].memory.current)
    ensures Shown(run[n], ss[i].name).Some?
    ensures var d, s, passes := Shown(run[n], ss[i].name).value, ss[i], run[n].runners[i].passes;
            && (now >= LastGood(s, passes) + staleAfter ==> !d.Fresh(now, staleAfter))
            && (LastGood(s, passes) > 0 && now < LastGoodStart(s, passes) + staleAfter ==> d.Fresh(now, staleAfter))
  {
    ShownBetweenPasses(ss, run, n, i);
    FreshnessFollowsSuccess(ss[i], run[n].runners[i].passes, now, staleAfter);
  }

  // ---- an accepted configuration ----

  /** The loops Run starts for a configuration. */
  function ConfiguredLoops(raw: seq<Config.Device>, poll: Config.Poll): (ss: seq<Settings>)
    ensures |ss| == |raw|
  {
    seq(|raw|, i requires 0 <= i < |raw| => PollingTiming.ConfiguredSettings(raw, poll, i))
  }

  lemma ConfiguredNamesDiffer(raw: seq<Config.Device>, poll: Config.Poll)
    requires Config.Accepted(Config.NormalisedAll(raw, poll), poll)
    ensures DistinctNames(ConfiguredLoops(raw, poll))
  {
    Config.AcceptedConfiguration(raw, poll);
  }

  /**
   For every configuration that normalise and Validate accept, in every state of every interleaving of all its
   loops: the store shows of each device what its own loop has published and nothing else, that loop reads its
   own record, and no two polls of one device are closer than MinInterval.
   */
  lemma AcceptedConfigurationRuns(raw: seq<Config.Device>, poll: Config.Poll, run: seq<World>, n: nat, i: nat)
    requires Config.Accepted(Config.NormalisedAll(raw, poll), poll)
    requires Run(ConfiguredLoops(raw, poll), run) && n < |run| && i < |raw|
    ensures var ss, w := ConfiguredLoops(raw, poll), run[n];
            && |w.runners| == |ss| && w.memory.Readable(w.memory.current)
            && var s, r := ss[i], w.runners[i];
            && CanRun(s, r.passes) && OnCourse(s, r)
            && Shown(w, s.name) == Replay(s.name, Mine(w.trace, i))
            && Mine(w.trace, i) + Pending(w.memory.PhaseOf(i)) == Written(s, r)
            && (w.memory.PhaseOf(i).Idle? ==> Shown(w, s.name) == r.own.record)
            && (PollingTiming.IntervalFits(s) ==> PollingTiming.Spaced(r.passes))
  {
    hide OnCourse, Written;
    var ss := ConfiguredLoops(raw, poll);
    ConfiguredNamesDiffer(raw, poll);
    EveryLoopRunsAlone(ss, run, n, i);
    var passes := run[n].runners[i].passes;
    if PollingTiming.IntervalFits(ss[i]) {
      forall a, b | 0 <= a < b < |passes| ensures passes[b].start - passes[a].start >= Config.MinInterval {
        PollingTiming.AcceptedConfigurationIsSpaced(raw, poll, i, Some(Registered(ss[i])), passes, a, b);
      }
    }
  }

  // ---- what readers get ----

  /** No assignment sets a stamp before the zero time. */
  predicate Timely(m: Mutation) {
    forall k | 0 <= k < |m| ::
      match m[k]
      case SetMeasuredAt(at) => at >= 0
      case SetStateAt(at) => at >= 0
      case SetSystemAt(at) => at >= 0
      case SetBatteriesAt(at) => at >= 0
      case _ => true
  }

  predicate NotBeforeZero(d: Device) {
    d.measuredAt >= 0 && d.stateAt >= 0 && d.systemAt >= 0 && d.batteriesAt >= 0
  }

  lemma {:induction false} TimelyApplied(d: Device, m: Mutation)
    requires NotBeforeZero(d) && Timely(m)
    ensures NotBeforeZero(Apply(d, m))
  {
    if m != [] { TimelyApplied(d, m[..|m| - 1]); }
  }

  predicate TimelyLog(log: seq<Change>) {
    forall k | 0 <= k < |log| :: Timely(log[k].mutation)
  }

  lemma NewIsNotBeforeZero(name: string)
    ensures NotBeforeZero(NewDevice(name))
  {
  }

  lemma {:induction false} TimelyFold(log: seq<Change>)
    requires TimelyLog(log)
    ensures forall name | name in Fold(log) :: NotBeforeZero(Fold(log)[name])
  {
    hide Timely, NotBeforeZero;
    if log != [] {
      var init, last := log[..|log| - 1], log[|log| - 1];
      TimelyFold(init);
      NewIsNotBeforeZero(last.name);
      TimelyApplied(Previous(Fold(init), last.name), last.mutation);
    }
  }

  ghost predicate TimelyInv(w: World) {
    && TimelyLog(w.memory.log)
    && forall t: nat | !w.memory.PhaseOf(t).Idle? :: Timely(w.memory.PhaseOf(t).change.mutation)
  }

  lemma ActTimely(s: Settings, r: Runner, q: Pass, read: Option<Device>)
    requires RunnerInv(s, r) && MayAct(s, r, q)
    ensures Act(s, r, q, read).update.Some? ==> Timely(Act(s, r, q, read).update.value)
  {
    hide CanRun, Future, Secondary, Attempt, Final, Written, Replay, Without, CapabilitiesFor, Closed;
  }

  lemma StepKeepsTimely(ss: seq<Settings>, w: World, step: Step)
    requires WorldInv(ss, w) && TimelyInv(w) && CanStep(ss, w, step)
    ensures TimelyInv(Then(ss, w, step))
  {
    hide Protocol.Inv, Protocol.Exec, Protocol.Enabled, Act, MayAct, RunnerInv, Timely, TraceInv, Written;
    var w' := Then(ss, w, step);
    match step
    case Inside(st) =>
      LogMoves(w.memory, st);
      forall t: nat | !w'.memory.PhaseOf(t).Idle? ensures Timely(w'.memory.PhaseOf(t).change.mutation) {
        PhasesMove(w.memory, st, t);
      }
    case Loop(i, q) =>
      ActTimely(ss[i], w.runners[i], q, Shown(w, ss[i].name));
      var out := OutcomeOf(ss, w, i, q);
      if out.update.Some? { Calls(w.memory, i, Change(ss[i].name, out.update.value)); }
  }

  lemma {:induction false} RunIsTimely(ss: seq<Settings>, run: seq<World>, n: nat)
    requires DistinctNames(ss) && Run(ss, run) && n < |run|
    ensures WorldInv(ss, run[n]) && TimelyInv(run[n])
    decreases n
  {
    RunKeepsInv(ss, run, n);
    hide WorldInv;
    if n > 0 {
      hide TimelyInv;
      RunIsTimely(ss, run, n - 1);
      assert Moves(ss, run[n - 1], run[n - 1 + 1]);
      var step :| CanStep(ss, run[n - 1], step) && run[n] == Then(ss, run[n - 1], step);
      StepKeepsTimely(ss, run[n - 1], step);
    }
  }

  lemma LoadIsFold(m: Protocol.Memory, k: nat)
    requires Protocol.Inv(m) && k < |m.loads|
    ensures m.Readable(m.loads[k].pointer) && m.loads[k].published <= |m.log|
    ensures m.Show(m.loads[k].pointer) == Fold(m.log[..m.loads[k].published])
  {
    assert Protocol.LoadShows(m, m.loads[k]);
  }

  /** Every snapshot ever loaded holds records under their own names, none dated before the zero time. */
  lemma LoadedIsDated(ss: seq<Settings>, run: seq<World>, n: nat, k: nat)
    requires DistinctNames(ss) && Run(ss, run) && n < |run| && k < |run[n].memory.loads|
    ensures var m := run[n].memory; m.Readable(m.loads[k].pointer)
    ensures var v := run[n].memory.Show(run[n].memory.loads[k].pointer);
            WellNamed(v) && forall name | name in v :: NotBeforeZero(v[name])
  {
    RunIsTimely(ss, run, n);
    var m := run[n].memory;
    LoadIsFold(m, k);
    var log := m.log[..m.loads[k].published];
    FoldWellNamed(log);
    TimelyFold(log);
  }
}
