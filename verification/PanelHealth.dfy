/** A display panel's failure latch and liveness watchdog: PanelHealth in
    clients/web/instrument-health.js. Its counters are not part of this model. */
module PanelHealth {
  import opened Wrappers

  const OK: nat := 0
  const LIVENESS: nat := 106

  datatype Config = Config(livenessDeadlineMs: real, recoveryFrames: int, tickIntervalMs: real)

  datatype State = State(
    latched: bool,
    reason: nat,
    goodStreak: nat,
    lastGeneration: Option<int>,
    lastAdvanceMs: real,
    lastTickMs: real)

  datatype Op =
    | Success(now: real, generation: int)
    | Failure(now: real, code: nat)
    | Tick(now: real)
    | Reset(now: real)

  datatype Display = Display(showFailure: bool, reason: nat)

  // ---- specification --------------------------------------------------------

  function Fresh(now: real): State {
    State(false, OK, 0, None, now, now)
  }

  predicate Starved(s: State, now: real, c: Config) {
    now - s.lastTickMs > 2.0 * c.tickIntervalMs
  }

  predicate Trips(s: State, now: real, c: Config) {
    !Starved(s, now, c) && now - s.lastAdvanceMs > c.livenessDeadlineMs && !s.latched
  }

  function Step(s: State, op: Op, c: Config): State {
    match op
    case Success(now, generation) =>
      var t := s.(lastGeneration := Some(generation));
      if s.lastGeneration == Some(generation) then t
      else if !s.latched then t.(lastAdvanceMs := now)
      else if s.goodStreak + 1 >= c.recoveryFrames then
        t.(lastAdvanceMs := now, latched := false, reason := OK, goodStreak := 0)
      else t.(lastAdvanceMs := now, goodStreak := s.goodStreak + 1)
    case Failure(_, code) => s.(latched := true, reason := code, goodStreak := 0)
    case Tick(now) =>
      var t := s.(lastTickMs := now);
      if Starved(s, now, c) then t.(lastAdvanceMs := now)
      else if Trips(s, now, c) then t.(latched := true, reason := LIVENESS, goodStreak := 0)
      else t
    case Reset(now) => Fresh(now)
  }

  // ---- the health object ----------------------------------------------------

  class PanelHealth {
    const config: Config
    var latched: bool
    var reason: nat
    var goodStreak: nat
    var lastGeneration: Option<int>
    var lastAdvanceMs: real
    var lastTickMs: real

    function Value(): State
      reads this
    {
      State(latched, reason, goodStreak, lastGeneration, lastAdvanceMs, lastTickMs)
    }

    constructor (config: Config, now: real)
      ensures Value() == Fresh(now) && this.config == config
    {
      this.config := config;
      latched, reason, goodStreak, lastGeneration, lastAdvanceMs, lastTickMs := false, OK, 0, None, now, now;
    }

    method Reinitialize(now: real)
      modifies this
      ensures Value() == Step(old(Value()), Reset(now), config)
    {
      latched, reason, goodStreak, lastGeneration, lastAdvanceMs, lastTickMs := false, OK, 0, None, now, now;
    }

    method ReportSuccess(now: real, generation: int) returns (display: Display)
      modifies this
      ensures Value() == Step(old(Value()), Op.Success(now, generation), config) && display == Shown()
    {
      var advanced := lastGeneration.None? || generation != lastGeneration.value;
      lastGeneration := Some(generation);
      if !advanced {
        return Shown();
      }
      lastAdvanceMs := now;
      if latched {
        goodStreak := goodStreak + 1;
        if goodStreak >= config.recoveryFrames {
          latched := false;
          reason := OK;
          goodStreak := 0;
        }
      }
      return Shown();
    }

    method ReportFailure(now: real, code: nat) returns (display: Display)
      modifies this
      ensures Value() == Step(old(Value()), Op.Failure(now, code), config) && display == Display(true, code)
    {
      latched := true;
      reason := code;
      goodStreak := 0;
      return Shown();
    }

    method OnTick(now: real) returns (display: Display)
      modifies this
      ensures Value() == Step(old(Value()), Tick(now), config) && display == Shown()
    {
      var starved := now - lastTickMs > 2.0 * config.tickIntervalMs;
      lastTickMs := now;
      if starved {
        lastAdvanceMs := now;
        return Shown();
      }
      if now - lastAdvanceMs > config.livenessDeadlineMs && !latched {
        latched := true;
        reason := LIVENESS;
        goodStreak := 0;
      }
      return Shown();
    }

    function Shown(): Display
      reads this
    {
      if latched then Display(true, reason) else Display(false, OK)
    }
  }

  // ---- runs -----------------------------------------------------------------

  function After(run: seq<Op>, start: real, c: Config): State {
    if run == [] then Fresh(start) else Step(After(run[..|run| - 1], start, c), run[|run| - 1], c)
  }

  /** The generation of the latest success since the latest reset. */
  function LatestGeneration(run: seq<Op>): Option<int> {
    if run == [] then None
    else
      match run[|run| - 1]
      case Success(_, generation) => Some(generation)
      case Reset(_) => None
      case _ => LatestGeneration(run[..|run| - 1])
  }

  /** The last step of the run reports a new generation. */
  predicate Advances(run: seq<Op>)
    requires run != []
  {
    var last := run[|run| - 1];
    last.Success? && LatestGeneration(run[..|run| - 1]) != Some(last.generation)
  }

  /** The last step of the run reports a failure, latches the watchdog, or
      resets. */
  predicate Marks(run: seq<Op>, start: real, c: Config)
    requires run != []
  {
    var last := run[|run| - 1];
    last.Failure? || last.Reset? || (last.Tick? && Trips(After(run[..|run| - 1], start, c), last.now, c))
  }

  /** Advancing successes since the latest mark, or since the start. */
  function AdvancesSinceMark(run: seq<Op>, start: real, c: Config): nat {
    if run == [] || Marks(run, start, c) then 0
    else AdvancesSinceMark(run[..|run| - 1], start, c) + (if Advances(run) then 1 else 0)
  }

  function Needed(c: Config): nat {
    if c.recoveryFrames < 1 then 1 else c.recoveryFrames
  }

  /** While latched, the streak is the advances since the mark, and short of
      what recovery needs. */
  lemma {:induction false} StreakCountsAdvances(run: seq<Op>, start: real, c: Config)
    ensures var s := After(run, start, c);
      && s.lastGeneration == LatestGeneration(run)
      && (s.latched ==> s.goodStreak == AdvancesSinceMark(run, start, c) < Needed(c))
      && (!s.latched ==> s.goodStreak == 0)
  {
    if run != [] {
      StreakCountsAdvances(run[..|run| - 1], start, c);
      hide LatestGeneration;
      assert LatestGeneration(run) == After(run, start, c).lastGeneration by {
        LatestStep(run);
      }
    }
  }

  lemma LatestStep(run: seq<Op>)
    requires run != []
    ensures LatestGeneration(run) ==
      match run[|run| - 1]
      case Success(_, generation) => Some(generation)
      case Reset(_) => None
      case _ => LatestGeneration(run[..|run| - 1])
  {
  }

  /** Over every run, a latched panel clears exactly on a reset, or on the
      recovering one of the advancing successes counted since the latest failure,
      watchdog trip or reset: never on one good frame after another failure. */
  lemma ClearsExactlyOnRecovery(run: seq<Op>, start: real, c: Config)
    requires run != [] && After(run[..|run| - 1], start, c).latched
    ensures !After(run, start, c).latched <==>
      || run[|run| - 1].Reset?
      || (Advances(run) && AdvancesSinceMark(run, start, c) == Needed(c))
  {
    StreakCountsAdvances(run[..|run| - 1], start, c);
    hide LatestGeneration, Trips;
  }

  // ---- the watchdog ---------------------------------------------------------

  function Run(s: State, ops: seq<Op>, c: Config): State
    decreases |ops|
  {
    if ops == [] then s else Run(Step(s, ops[0], c), ops[1..], c)
  }

  /** No frame advances, no tick is starved and nothing resets. */
  predicate Stagnant(s: State, ops: seq<Op>, c: Config)
    decreases |ops|
  {
    ops == []
    || (&& (ops[0].Success? ==> s.lastGeneration == Some(ops[0].generation))
        && (ops[0].Tick? ==> !Starved(s, ops[0].now, c))
        && !ops[0].Reset?
        && Stagnant(Step(s, ops[0], c), ops[1..], c))
  }

  /** Nothing stagnant clears a latch or moves the last advance. */
  lemma {:induction false} StagnationKeepsTheLatch(s: State, ops: seq<Op>, c: Config)
    requires Stagnant(s, ops, c)
    ensures Run(s, ops, c).lastAdvanceMs == s.lastAdvanceMs
    ensures s.latched ==> Run(s, ops, c).latched
    decreases |ops|
  {
    if ops != [] {
      StagnationKeepsTheLatch(Step(s, ops[0], c), ops[1..], c);
    }
  }

  lemma {:induction false} StagnantInTwo(s: State, a: seq<Op>, b: seq<Op>, c: Config)
    requires Stagnant(s, a + b, c)
    ensures Stagnant(s, a, c) && Stagnant(Run(s, a, c), b, c) && Run(s, a + b, c) == Run(Run(s, a, c), b, c)
    decreases |a|
  {
    if a == [] {
      assert a + b == b;
    } else {
      assert (a + b)[1..] == a[1..] + b;
      StagnantInTwo(Step(s, a[0], c), a[1..], b, c);
    }
  }

  /** From any state: when no frame advances, no tick is starved and nothing
      resets, one tick later than the deadline after the last advance leaves the
      panel latched, and it stays latched for the rest of the stagnation,
      failures and repeated generations included. */
  lemma WatchdogLatchesStagnation(s: State, before: seq<Op>, now: real, after: seq<Op>, c: Config)
    requires Stagnant(s, before + [Tick(now)] + after, c)
    requires now > s.lastAdvanceMs + c.livenessDeadlineMs
    ensures Run(s, before + [Tick(now)] + after, c).latched
  {
    assert before + [Tick(now)] + after == before + ([Tick(now)] + after);
    StagnantInTwo(s, before, [Tick(now)] + after, c);
    StagnationKeepsTheLatch(s, before, c);
    var late := Run(s, before, c);
    assert ([Tick(now)] + after)[1..] == after;
    assert Step(late, Tick(now), c).latched;
    StagnationKeepsTheLatch(Step(late, Tick(now), c), after, c);
  }
}
