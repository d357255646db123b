/** The build limit of a store, moved by samples of its host. Times and
    averages are real numbers. */
module Pressure {
  import opened Wrappers

  datatype Reason =
    | Unmonitored | SlowStart | Steady | MemoryPressure | IoPressure | LowMemory | CpuPressure | Load

  datatype Psi = Psi(memoryFull: real, ioFull: real, cpuSome: real)

  datatype Memory = Memory(total: nat, available: nat)

  datatype Health = Health(psi: Option<Psi>, memory: Option<Memory>, cores: Option<real>, load1: Option<real>)

  datatype Settings = Settings(
    enabled: bool,
    memoryHigh: real, memoryLow: real,
    ioHigh: real, ioLow: real,
    cpuHigh: real, loadHigh: real,
    minMemoryMb: nat,
    decreaseFactor: real,
    increaseStep: int,
    settle: real,
    initialLimit: Option<int>)

  /** The settings the limit is meant to work with. */
  predicate Sane(s: Settings) {
    0.0 <= s.decreaseFactor <= 1.0 && s.increaseStep >= 1 && s.settle > 0.0
  }

  /** A sample: the health, if any, the builds that run, and the time. */
  datatype Sample = Sample(health: Option<Health>, running: int, now: real)

  datatype State = State(limit: int, reason: Reason, slowStart: bool, sampledAt: Option<real>, nextFall: real, nextRise: real)

  function Initially(ceiling: int): State {
    State(ceiling, Unmonitored, true, None, 0.0, 0.0)
  }

  function Min(a: int, b: int): int { if a < b then a else b }

  function Max(a: int, b: int): int { if a > b then a else b }

  /** Python's `int` of a float. */
  function Truncate(x: real): int {
    if x >= 0.0 then x.Floor else -((-x).Floor)
  }

  predicate KnowsMemory(h: Health) {
    h.memory.Some? && h.memory.value.total != 0
  }

  predicate HasSignal(h: Health) {
    h.psi.Some? || KnowsMemory(h) || h.load1.Some?
  }

  predicate Monitored(s: Settings, x: Sample) {
    s.enabled && x.health.Some? && HasSignal(x.health.value)
  }

  predicate KnowsCores(h: Health) {
    h.cores.Some? && h.cores.value != 0.0
  }

  function InitialLimit(s: Settings, ceiling: int, h: Health): int {
    var start := if s.initialLimit.Some? then s.initialLimit.value
                 else if KnowsCores(h) then Truncate(h.cores.value) else 1;
    Max(1, Min(ceiling, start))
  }

  /** The reason, and whether it lowers the limit. */
  function Verdict(s: Settings, h: Health): (v: (Reason, bool))
    ensures v.0 !in {Unmonitored, SlowStart} && (v.1 ==> v.0 in {MemoryPressure, IoPressure, LowMemory})
  {
    var minKb := s.minMemoryMb * 1024;
    if h.psi.Some? && h.psi.value.memoryFull >= s.memoryHigh then (MemoryPressure, true)
    else if h.psi.Some? && h.psi.value.ioFull >= s.ioHigh then (IoPressure, true)
    else if KnowsMemory(h) && h.memory.value.available < minKb then (LowMemory, true)
    else if h.psi.Some? && h.psi.value.memoryFull > s.memoryLow then (MemoryPressure, false)
    else if h.psi.Some? && h.psi.value.ioFull > s.ioLow then (IoPressure, false)
    else if KnowsMemory(h) && h.memory.value.available < 2 * minKb then (LowMemory, false)
    else if h.psi.Some? && h.psi.value.cpuSome >= s.cpuHigh then (CpuPressure, false)
    else if h.psi.None? && h.load1.Some? && KnowsCores(h) && h.load1.value / h.cores.value >= s.loadHigh then (Load, false)
    else (Steady, false)
  }

  /** A fall needs a signal past its high mark; a rise needs every signal it
      knows under its low mark. */
  lemma VerdictMarks(s: Settings, h: Health)
    requires s.memoryLow <= s.memoryHigh && s.ioLow <= s.ioHigh
    ensures Verdict(s, h).1 <==>
              || (h.psi.Some? && (h.psi.value.memoryFull >= s.memoryHigh || h.psi.value.ioFull >= s.ioHigh))
              || (KnowsMemory(h) && h.memory.value.available < s.minMemoryMb * 1024)
    ensures Verdict(s, h).0 == Steady && !Verdict(s, h).1 <==>
              && (h.psi.Some? ==> h.psi.value.memoryFull <= s.memoryLow && h.psi.value.memoryFull < s.memoryHigh
                                  && h.psi.value.ioFull <= s.ioLow && h.psi.value.ioFull < s.ioHigh
                                  && h.psi.value.cpuSome < s.cpuHigh)
              && (h.memory.Some? && h.memory.value.total != 0 ==> h.memory.value.available >= 2 * (s.minMemoryMb * 1024))
              && (h.psi.None? && h.load1.Some? && h.cores.Some? && h.cores.value != 0.0 ==> h.load1.value / h.cores.value < s.loadHigh)
  {
  }

  // ---- one sample ----

  /** The limit lies between one and the ceiling, and without a signal it is the
      ceiling. */
  predicate InRange(ceiling: int, st: State) {
    1 <= st.limit <= ceiling && (st.reason == Unmonitored ==> st.limit == ceiling)
  }

  /** The state a monitored sample starts from: the first one begins a slow
      start. */
  function Entered(s: Settings, ceiling: int, st: State, x: Sample): State
    requires Monitored(s, x)
  {
    var begun := if st.reason == Unmonitored
                 then st.(limit := InitialLimit(s, ceiling, x.health.value), reason := SlowStart, slowStart := true,
                          nextRise := x.now + s.settle)
                 else st;
    begun.(sampledAt := Some(x.now))
  }

  predicate Falls(s: Settings, st: State, x: Sample) {
    Monitored(s, x) && Verdict(s, x.health.value).1 && x.now >= st.nextFall
  }

  predicate Rises(s: Settings, ceiling: int, st: State, x: Sample) {
    && Monitored(s, x) && Verdict(s, x.health.value).0 == Steady
    && var e := Entered(s, ceiling, st, x); x.running >= e.limit && e.limit < ceiling && x.now >= e.nextRise
  }

  /** The share of the builds that run which a fall leaves. */
  function Cut(s: Settings, limit: int, running: int): (cut: int)
    requires limit >= 1 && 0.0 <= s.decreaseFactor <= 1.0
    ensures 1 <= cut <= limit
  {
    var base := Min(limit, Max(running, 1));
    CutInRange(base, s.decreaseFactor);
    Max(1, Truncate(base as real * s.decreaseFactor))
  }

  /** A fall leaves the whole part of the factor's share of the builds that run,
      at most the limit of them, and one at least. */
  lemma CutIsTheShare(s: Settings, limit: int, running: int)
    requires limit >= 1 && 0.0 <= s.decreaseFactor <= 1.0
    ensures var base := if running < 1 then 1 else if running < limit then running else limit;
            var share, cut := base as real * s.decreaseFactor, Cut(s, limit, running);
            share < cut as real + 1.0 && (cut == 1 || cut as real <= share)
  {
    var base := Min(limit, Max(running, 1));
    CutInRange(base, s.decreaseFactor);
  }

  lemma CutInRange(limit: int, factor: real)
    requires limit >= 1 && 0.0 <= factor <= 1.0
    ensures 0 <= Truncate(limit as real * factor) <= limit
  {
    var x := limit as real * factor;
    assert 0.0 <= x <= limit as real;
  }

  function AfterFall(s: Settings, e: State, x: Sample, reason: Reason): State
    requires Sane(s) && e.limit >= 1
  {
    e.(limit := Cut(s, e.limit, x.running), reason := reason, slowStart := false, nextFall := x.now + s.settle, nextRise := x.now + s.settle)
  }

  function AfterRise(s: Settings, ceiling: int, e: State, x: Sample): State {
    var grown := if e.slowStart then e.limit * 2 else e.limit + s.increaseStep;
    e.(limit := Min(ceiling, grown), nextRise := x.now + s.settle)
  }

  function Observed(s: Settings, ceiling: int, st: State, x: Sample): State
    requires Sane(s) && InRange(ceiling, st)
  {
    if !Monitored(s, x) then st.(limit := ceiling, reason := Unmonitored, sampledAt := None) else
      var e := Entered(s, ceiling, st, x);
      var (verdict, _) := Verdict(s, x.health.value);
      if Falls(s, st, x) then AfterFall(s, e, x, verdict)
      else if verdict != Steady then e.(reason := verdict)
      else
        var kept := e.(reason := if e.slowStart then SlowStart else Steady);
        if Rises(s, ceiling, st, x) then AfterRise(s, ceiling, kept, x) else kept
  }

  /** The source's class. */
  class BuildLimit {
    const ceiling: int
    const settings: Settings
    var limit: int
    var reason: Reason
    var slowStart: bool
    var sampledAt: Option<real>
    var nextFall: real
    var nextRise: real

    ghost function Now(): State
      reads this
    {
      State(limit, reason, slowStart, sampledAt, nextFall, nextRise)
    }

    constructor (ceiling: int, settings: Settings)
      ensures this.ceiling == ceiling && this.settings == settings && Now() == Initially(ceiling)
    {
      this.ceiling, this.settings := ceiling, settings;
      limit, reason, slowStart, sampledAt, nextFall, nextRise := ceiling, Unmonitored, true, None, 0.0, 0.0;
    }

    /** Move the limit for one sample; the answer is whether it rose. */
    method Observe(x: Sample) returns (rose: bool)
      requires Sane(settings) && InRange(ceiling, Now())
      modifies this
      ensures Now() == Observed(settings, ceiling, old(Now()), x) && InRange(ceiling, Now())
      ensures rose == (limit > old(limit))
    {
      ObservedInRange(settings, ceiling, Now(), x);
      ObservedHigher(settings, ceiling, Now(), x);
      if !settings.enabled || x.health.None? || !HasSignal(x.health.value) {
        rose := limit < ceiling;
        limit, reason, sampledAt := ceiling, Unmonitored, None;
        return;
      }
      if reason == Unmonitored {
        limit, reason := InitialLimit(settings, ceiling, x.health.value), SlowStart;
        slowStart := true;
        nextRise := x.now + settings.settle;
      }
      sampledAt := Some(x.now);
      ghost var entered := Now();
      assert entered == Entered(settings, ceiling, old(Now()), x);
      var (verdict, falls) := Verdict(settings, x.health.value);
      if falls && x.now >= nextFall {
        limit, reason := Cut(settings, limit, x.running), verdict;
        slowStart := false;
        nextFall, nextRise := x.now + settings.settle, x.now + settings.settle;
        assert Now() == AfterFall(settings, entered, x, verdict);
        return false;
      }
      if verdict != Steady {
        reason := verdict;
        return false;
      }
      reason := if slowStart then SlowStart else Steady;
      if x.running < limit || limit >= ceiling || x.now < nextRise { return false; }
      var grown := if slowStart then limit * 2 else limit + settings.increaseStep;
      limit := Min(ceiling, grown);
      nextRise := x.now + settings.settle;
      return true;
    }
  }

  /** The limit stays between one and the ceiling. */
  lemma ObservedInRange(s: Settings, ceiling: int, st: State, x: Sample)
    requires Sane(s) && InRange(ceiling, st)
    ensures InRange(ceiling, Observed(s, ceiling, st, x))
    ensures Observed(s, ceiling, st, x).reason == Unmonitored <==> !Monitored(s, x)
  {
  }

  /** The limit ends higher exactly when a monitored sample rises, or when one
      without a signal lifts a limit under the ceiling. */
  lemma ObservedHigher(s: Settings, ceiling: int, st: State, x: Sample)
    requires Sane(s) && InRange(ceiling, st)
    ensures Observed(s, ceiling, st, x).limit > st.limit <==>
              if Monitored(s, x) then Rises(s, ceiling, st, x) else st.limit < ceiling
  {
  }

  /** The limit the first sample with a signal begins with: the configured one, or
      the whole cores, or one, within one and the ceiling. */
  lemma FirstLimit(s: Settings, ceiling: int, h: Health)
    requires ceiling >= 1
    ensures var limit := InitialLimit(s, ceiling, h);
            && 1 <= limit <= ceiling
            && (s.initialLimit.Some? ==>
                  if s.initialLimit.value < 1 then limit == 1
                  else if s.initialLimit.value > ceiling then limit == ceiling else limit == s.initialLimit.value)
            && (s.initialLimit.None? && h.cores.Some? && h.cores.value >= 1.0 ==>
                  limit == ceiling || limit as real <= h.cores.value < limit as real + 1.0)
            && (s.initialLimit.None? && h.cores.Some? && h.cores.value >= ceiling as real ==> limit == ceiling)
            && (s.initialLimit.None? && (h.cores.None? || h.cores.value < 1.0) ==> limit == 1)
  {
  }

  /** Where the limit goes, sample by sample. Without a signal it is the ceiling.
      The first signal begins a slow start. A sample past a high mark cuts it, once
      per `settle`; a steady one under a full load raises it, by doubling during
      the slow start and by the step after it; every other sample leaves it. */
  lemma LimitMoves(s: Settings, ceiling: int, st: State, x: Sample)
    requires Sane(s) && InRange(ceiling, st)
    ensures var st' := Observed(s, ceiling, st, x);
            var signal := s.enabled && x.health.Some?
                          && (|| x.health.value.psi.Some? || x.health.value.load1.Some?
                              || (x.health.value.memory.Some? && x.health.value.memory.value.total != 0));
            && (!signal ==> st'.limit == ceiling && st'.reason == Unmonitored && st'.sampledAt.None?)
            && (signal ==>
                && st'.sampledAt == Some(x.now)
                && var begins := st.reason == Unmonitored;
                   var limit := if begins then InitialLimit(s, ceiling, x.health.value) else st.limit;
                   var slow := begins || st.slowStart;
                   var (verdict, high) := Verdict(s, x.health.value);
                   if high && x.now >= st.nextFall then
                     && st'.limit == Cut(s, limit, x.running) && !st'.slowStart && st'.reason == verdict
                     && st'.nextFall == x.now + s.settle && st'.nextRise == x.now + s.settle
                   else if verdict == Steady && x.running >= limit && limit < ceiling && !begins && x.now >= st.nextRise then
                     && st'.limit == (if slow then (if 2 * limit < ceiling then 2 * limit else ceiling)
                                      else if limit + s.increaseStep < ceiling then limit + s.increaseStep else ceiling)
                     && st'.nextRise == x.now + s.settle && st'.nextFall == st.nextFall && st'.slowStart == slow
                   else
                     && st'.limit == limit && st'.slowStart == slow && st'.nextFall == st.nextFall
                     && st'.nextRise == if begins then x.now + s.settle else st.nextRise)
  {
  }

  // ---- runs ----

  ghost predicate InTime(xs: seq<Sample>) {
    forall i, j :: 0 <= i <= j < |xs| ==> xs[i].now <= xs[j].now
  }

  /** The state before sample `k` of a run. */
  function Before(s: Settings, ceiling: int, st: State, xs: seq<Sample>, k: nat): (r: State)
    requires Sane(s) && InRange(ceiling, st) && k <= |xs|
    ensures InRange(ceiling, r)
  {
    if k == 0 then st else
      ObservedInRange(s, ceiling, Before(s, ceiling, st, xs, k - 1), xs[k - 1]);
      Observed(s, ceiling, Before(s, ceiling, st, xs, k - 1), xs[k - 1])
  }

  lemma BeforeNext(s: Settings, ceiling: int, st: State, xs: seq<Sample>, k: nat)
    requires Sane(s) && InRange(ceiling, st) && k < |xs|
    ensures Before(s, ceiling, st, xs, k + 1) == Observed(s, ceiling, Before(s, ceiling, st, xs, k), xs[k])
  {
  }

  /** A wait that reaches up to a time still does after later samples. */
  lemma {:induction false} WaitsStay(s: Settings, ceiling: int, st: State, xs: seq<Sample>, j: nat, k: nat, time: real)
    requires Sane(s) && InRange(ceiling, st) && j <= k <= |xs|
    requires forall m :: j <= m < k ==> time <= xs[m].now + s.settle
    ensures Before(s, ceiling, st, xs, j).nextFall >= time ==> Before(s, ceiling, st, xs, k).nextFall >= time
    ensures Before(s, ceiling, st, xs, j).nextRise >= time ==> Before(s, ceiling, st, xs, k).nextRise >= time
    decreases k
  {
    if k > j {
      WaitsStay(s, ceiling, st, xs, j, k - 1, time);
      BeforeNext(s, ceiling, st, xs, k - 1);
      LaterWaits(s, ceiling, Before(s, ceiling, st, xs, k - 1), xs[k - 1], time);
    }
  }

  lemma WaitsStayOrdered(s: Settings, ceiling: int, st: State, xs: seq<Sample>, i: nat, k: nat)
    requires Sane(s) && InRange(ceiling, st) && InTime(xs) && i < k <= |xs|
    ensures Before(s, ceiling, st, xs, i + 1).nextFall >= xs[i].now + s.settle ==>
              Before(s, ceiling, st, xs, k).nextFall >= xs[i].now + s.settle
    ensures Before(s, ceiling, st, xs, i + 1).nextRise >= xs[i].now + s.settle ==>
              Before(s, ceiling, st, xs, k).nextRise >= xs[i].now + s.settle
  {
    var time := xs[i].now + s.settle;
    forall m | i + 1 <= m < k
      ensures time <= xs[m].now + s.settle
    { assert xs[i].now <= xs[m].now; }
    WaitsStay(s, ceiling, st, xs, i + 1, k, time);
  }

  lemma MoveWaits(s: Settings, ceiling: int, st: State, xs: seq<Sample>, i: nat)
    requires Sane(s) && InRange(ceiling, st) && i < |xs|
    ensures Falls(s, Before(s, ceiling, st, xs, i), xs[i]) ==> Before(s, ceiling, st, xs, i + 1).nextFall >= xs[i].now + s.settle
    ensures Falls(s, Before(s, ceiling, st, xs, i), xs[i]) || Rises(s, ceiling, Before(s, ceiling, st, xs, i), xs[i]) ==>
              Before(s, ceiling, st, xs, i + 1).nextRise >= xs[i].now + s.settle
  {
    BeforeNext(s, ceiling, st, xs, i);
    MoveSetsWaits(s, ceiling, Before(s, ceiling, st, xs, i), xs[i]);
  }

  /** The next fall and rise wait for times the run has set; no sample moves
      them back before a time that was set earlier in it. */
  lemma WaitsHold(s: Settings, ceiling: int, st: State, xs: seq<Sample>, i: nat, k: nat)
    requires Sane(s) && InRange(ceiling, st) && InTime(xs) && i < k <= |xs|
    ensures var b, a := Before(s, ceiling, st, xs, i), Before(s, ceiling, st, xs, k);
            && (Falls(s, b, xs[i]) ==> a.nextFall >= xs[i].now + s.settle && a.nextRise >= xs[i].now + s.settle)
            && (Rises(s, ceiling, b, xs[i]) ==> a.nextRise >= xs[i].now + s.settle)
  {
    MoveWaits(s, ceiling, st, xs, i);
    WaitsStayOrdered(s, ceiling, st, xs, i, k);
  }

  lemma StepKeepsWaits(s: Settings, ceiling: int, st: State, x: Sample)
    requires Sane(s) && InRange(ceiling, st)
    ensures Observed(s, ceiling, st, x).nextFall in {st.nextFall, x.now + s.settle}
    ensures Observed(s, ceiling, st, x).nextRise in {st.nextRise, x.now + s.settle}
  {
  }

  lemma LaterWaits(s: Settings, ceiling: int, st: State, x: Sample, time: real)
    requires Sane(s) && InRange(ceiling, st) && time <= x.now + s.settle
    ensures st.nextFall >= time ==> Observed(s, ceiling, st, x).nextFall >= time
    ensures st.nextRise >= time ==> Observed(s, ceiling, st, x).nextRise >= time
  {
    StepKeepsWaits(s, ceiling, st, x);
  }

  lemma MoveSetsWaits(s: Settings, ceiling: int, st: State, x: Sample)
    requires Sane(s) && InRange(ceiling, st)
    ensures Falls(s, st, x) ==> Observed(s, ceiling, st, x).nextFall == x.now + s.settle
    ensures Falls(s, st, x) || Rises(s, ceiling, st, x) ==> Observed(s, ceiling, st, x).nextRise == x.now + s.settle
  {
  }

  /** In every run two falls are at least `settle` apart, also across samples
      without a signal. */
  lemma FallsAreApart(s: Settings, ceiling: int, st: State, xs: seq<Sample>, i: nat, j: nat)
    requires Sane(s) && InRange(ceiling, st) && InTime(xs) && i < j < |xs|
    requires Falls(s, Before(s, ceiling, st, xs, i), xs[i]) && Falls(s, Before(s, ceiling, st, xs, j), xs[j])
    ensures xs[j].now >= xs[i].now + s.settle
  {
    WaitsHold(s, ceiling, st, xs, i, j);
  }

  /** The first sample with a signal never rises. */
  lemma RiseWaited(s: Settings, ceiling: int, st: State, x: Sample)
    requires Sane(s) && Rises(s, ceiling, st, x)
    ensures st.reason != Unmonitored && x.now >= st.nextRise
  {
  }

  /** No monitored rise comes within `settle` of an earlier fall or rise. */
  lemma RisesWait(s: Settings, ceiling: int, st: State, xs: seq<Sample>, i: nat, j: nat)
    requires Sane(s) && InRange(ceiling, st) && InTime(xs) && i < j < |xs|
    requires Falls(s, Before(s, ceiling, st, xs, i), xs[i]) || Rises(s, ceiling, Before(s, ceiling, st, xs, i), xs[i])
    requires Rises(s, ceiling, Before(s, ceiling, st, xs, j), xs[j])
    ensures xs[j].now >= xs[i].now + s.settle
  {
    WaitsHold(s, ceiling, st, xs, i, j);
    RiseWaited(s, ceiling, Before(s, ceiling, st, xs, j), xs[j]);
  }

  lemma {:induction false} SlowStartIsOver(s: Settings, ceiling: int, st: State, xs: seq<Sample>, i: nat, k: nat)
    requires Sane(s) && InRange(ceiling, st) && i < k <= |xs|
    requires Falls(s, Before(s, ceiling, st, xs, i), xs[i])
    requires forall m :: i < m < k ==> Monitored(s, xs[m])
    ensures var a := Before(s, ceiling, st, xs, k); !a.slowStart && a.reason != Unmonitored
    decreases k
  {
    if k > i + 1 { SlowStartIsOver(s, ceiling, st, xs, i, k - 1); }
  }

  /** After a fall, and while there is a signal, the limit grows by the step
      alone. */
  lemma GrowthAfterAFallIsAdditive(s: Settings, ceiling: int, st: State, xs: seq<Sample>, i: nat, j: nat)
    requires Sane(s) && InRange(ceiling, st) && i < j < |xs|
    requires Falls(s, Before(s, ceiling, st, xs, i), xs[i])
    requires forall m :: i < m <= j ==> Monitored(s, xs[m])
    ensures var b, a := Before(s, ceiling, st, xs, j), Before(s, ceiling, st, xs, j + 1);
            a.limit > b.limit ==> a.limit == Min(ceiling, b.limit + s.increaseStep)
  {
    SlowStartIsOver(s, ceiling, st, xs, i, j);
  }
}
