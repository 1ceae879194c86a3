/** Automatic reconnection: clients/web/reconnect.js. The `connect`, `schedule`
    and `cancel` callbacks are recorded in a log; page visibility, session
    presence and the random fraction are inputs of the step that reads them. */
module Reconnect {
  import opened Wrappers

  // ---- backoff --------------------------------------------------------------

  datatype Backoff = Backoff(baseMs: real, maxMs: real, jitterRatio: real)

  function Doubled(base: real, attempts: nat): real {
    if attempts == 0 then base else 2.0 * Doubled(base, attempts - 1)
  }

  /** `Math.round`: halves go up. */
  function Round(x: real): int {
    (x + 0.5).Floor
  }

  function Exponential(attempts: nat, b: Backoff): real {
    if b.maxMs < Doubled(b.baseMs, attempts) then b.maxMs else Doubled(b.baseMs, attempts)
  }

  function Times(x: real, y: real): real {
    x * y
  }

  /** What the jitter adds: between minus and plus the spread. */
  function Offset(attempts: nat, b: Backoff, jitter: real): real {
    Times(jitter * 2.0 - 1.0, Times(Exponential(attempts, b), b.jitterRatio))
  }

  function DelayBeforeRounding(attempts: nat, b: Backoff, jitter: real): real {
    Exponential(attempts, b) + Offset(attempts, b, jitter)
  }

  function ReconnectDelayMs(attempts: nat, b: Backoff, jitter: real): nat {
    var rounded := Round(DelayBeforeRounding(attempts, b, jitter));
    if rounded < 0 then 0 else rounded
  }

  predicate Sensible(b: Backoff) {
    0.0 < b.baseMs <= b.maxMs && 0.0 <= b.jitterRatio <= 1.0
  }

  // Products, one fact each.

  lemma TimesSign(x: real, y: real)
    requires 0.0 <= x && 0.0 <= y
    ensures 0.0 <= Times(x, y)
  {
  }

  lemma TimesZero(x: real, y: real)
    ensures Times(x, y) == 0.0 <==> x == 0.0 || y == 0.0
  {
  }

  lemma TimesSum(x: real, y: real, z: real)
    ensures Times(x + y, z) == Times(x, z) + Times(y, z)
    ensures Times(z, x + y) == Times(z, x) + Times(z, y)
    ensures Times(1.0, z) == z && Times(z, 1.0) == z && Times(-x, z) == -Times(x, z)
  {
  }

  lemma TimesSwap(x: real, e: real, r: real)
    ensures Times(x, Times(e, r)) == Times(e, Times(x, r))
  {
    assert x * (e * r) == e * (x * r);
  }

  lemma TimesGrow(x: real, y: real, f: real, g: real)
    requires 0.0 <= x <= y && 0.0 <= f <= g
    ensures 0.0 <= Times(x, f) <= Times(y, g)
  {
    TimesSign(x, f);
    TimesSign(y - x, f);
    TimesSign(y, g - f);
    TimesSum(x, y - x, f);
    TimesSum(f, g - f, y);
    hide Times;
    assert x + (y - x) == y && f + (g - f) == g;
  }

  lemma {:induction false} DoubledGrows(base: real, few: nat, many: nat)
    requires 0.0 < base && few <= many
    ensures 0.0 < base <= Doubled(base, few) <= Doubled(base, many)
    decreases many
  {
    if few < many {
      DoubledGrows(base, few, many - 1);
    } else if few > 0 {
      DoubledGrows(base, few - 1, few - 1);
    }
  }

  function Factor(b: Backoff, jitter: real): real {
    1.0 + Times(jitter * 2.0 - 1.0, b.jitterRatio)
  }

  lemma FactorBounds(b: Backoff, jitter: real)
    requires Sensible(b) && 0.0 <= jitter < 1.0
    ensures 0.0 <= 1.0 - b.jitterRatio <= Factor(b, jitter) <= 1.0 + b.jitterRatio
  {
    var x, r := jitter * 2.0 - 1.0, b.jitterRatio;
    TimesSign(1.0 + x, r);
    TimesSign(1.0 + -x, r);
    TimesSum(1.0, x, r);
    TimesSum(1.0, -x, r);
    TimesSum(x, x, r);
    hide Times;
  }

  lemma DelayIsScaled(attempts: nat, b: Backoff, jitter: real)
    ensures DelayBeforeRounding(attempts, b, jitter) == Times(Exponential(attempts, b), Factor(b, jitter))
  {
    var e, x := Exponential(attempts, b), jitter * 2.0 - 1.0;
    TimesSwap(x, e, b.jitterRatio);
    TimesSum(1.0, Times(x, b.jitterRatio), e);
    hide Times, Exponential;
  }

  lemma RoundInOrder(x: real, y: real)
    requires x <= y
    ensures Round(x) <= Round(y) && (0.0 <= x ==> 0 <= Round(x))
  {
  }

  /** The backoff never shrinks with more attempts, and lies between the first
      delay at jitter 0 and the cap with the whole spread added. */
  lemma DelayBounds(few: nat, many: nat, b: Backoff, jitter: real)
    requires Sensible(b) && 0.0 <= jitter < 1.0 && few <= many
    ensures ReconnectDelayMs(0, b, 0.0) <= ReconnectDelayMs(few, b, jitter)
    ensures ReconnectDelayMs(few, b, jitter) <= ReconnectDelayMs(many, b, jitter)
    ensures ReconnectDelayMs(many, b, jitter) <= Round(Times(b.maxMs, 1.0 + b.jitterRatio))
  {
    ExponentialInOrder(few, many, b);
    FactorBounds(b, jitter);
    FactorBounds(b, 0.0);
    LeastFactor(b);
    DelayIsScaled(0, b, 0.0);
    DelayIsScaled(few, b, jitter);
    DelayIsScaled(many, b, jitter);
    var low, high, factor := Exponential(few, b), Exponential(many, b), Factor(b, jitter);
    hide Factor, DelayBeforeRounding, Doubled, Times, Round, Exponential;
    TimesGrow(b.baseMs, low, Factor(b, 0.0), factor);
    TimesGrow(low, high, factor, factor);
    TimesGrow(high, b.maxMs, factor, 1.0 + b.jitterRatio);
    RoundInOrder(Times(b.baseMs, Factor(b, 0.0)), Times(low, factor));
    RoundInOrder(Times(low, factor), Times(high, factor));
    RoundInOrder(Times(high, factor), Times(b.maxMs, 1.0 + b.jitterRatio));
  }

  lemma LeastFactor(b: Backoff)
    ensures Factor(b, 0.0) == 1.0 - b.jitterRatio
  {
    TimesSum(1.0, 1.0, b.jitterRatio);
    assert 0.0 * 2.0 - 1.0 == -1.0;
    hide Times;
  }

  lemma ExponentialInOrder(few: nat, many: nat, b: Backoff)
    requires Sensible(b) && few <= many
    ensures Exponential(0, b) == b.baseMs <= Exponential(few, b) <= Exponential(many, b) <= b.maxMs
  {
    DoubledGrows(b.baseMs, 0, few);
    DoubledGrows(b.baseMs, few, many);
  }

  /** Once the doubling passes the cap, further attempts change nothing. */
  lemma CapIsReached(few: nat, many: nat, b: Backoff, jitter: real)
    requires Sensible(b) && few <= many && b.maxMs <= Doubled(b.baseMs, few)
    ensures ReconnectDelayMs(few, b, jitter) == ReconnectDelayMs(many, b, jitter)
  {
    DoubledGrows(b.baseMs, few, many);
    assert Exponential(few, b) == Exponential(many, b);
    hide Exponential;
  }

  /** Before rounding, the delay is the un-jittered one if and only if there is no
      spread or the jitter is one half. The comment above the function, which
      says so of jitter 0, holds for no backoff with a spread. */
  lemma UnjitteredExactlyAtOneHalf(attempts: nat, b: Backoff, jitter: real)
    requires Sensible(b)
    ensures DelayBeforeRounding(attempts, b, jitter) == Exponential(attempts, b) <==>
      b.jitterRatio == 0.0 || jitter == 0.5
  {
    ExponentialInOrder(attempts, attempts, b);
    TimesZero(jitter * 2.0 - 1.0, Times(Exponential(attempts, b), b.jitterRatio));
    TimesZero(Exponential(attempts, b), b.jitterRatio);
    hide Times, Exponential;
  }

  /** Rounding moves the jitter's effect by less than a millisecond: it never hides
      a whole one, and where the un-jittered delay is a whole number of
      milliseconds it hides exactly what lies within half of one. */
  lemma RoundingHidesLessThanAMillisecond(attempts: nat, b: Backoff, jitter: real)
    requires Sensible(b) && 0.0 <= jitter < 1.0
    ensures var e, o := Exponential(attempts, b), Offset(attempts, b, jitter);
      var delay, plain := ReconnectDelayMs(attempts, b, jitter), Round(e);
      && o - 1.0 < (delay - plain) as real < o + 1.0
      && (delay == plain <==> plain as real - 0.5 <= e + o < plain as real + 0.5)
      && (e == plain as real ==> (delay == plain <==> -0.5 <= o < 0.5))
  {
    ExponentialInOrder(attempts, attempts, b);
    FactorBounds(b, jitter);
    DelayIsScaled(attempts, b, jitter);
    TimesSign(Exponential(attempts, b), Factor(b, jitter));
    hide Exponential, Offset, Times, Factor;
  }

  /** The default random source is always 0, so every delay is short by the whole
      spread: 750 ms where the base is 1000. */
  lemma DefaultJitterSubtractsTheSpread(attempts: nat, b: Backoff)
    requires Sensible(b)
    ensures DelayBeforeRounding(attempts, b, 0.0)
      == Exponential(attempts, b) - Times(Exponential(attempts, b), b.jitterRatio)
    ensures ReconnectDelayMs(0, Backoff(1000.0, 15000.0, 0.25), 0.0) == 750
  {
    var spread := Times(Exponential(attempts, b), b.jitterRatio);
    TimesSum(1.0, 1.0, spread);
    assert 0.0 * 2.0 - 1.0 == -1.0;
    FirstDelay();
    hide Times, Exponential, ReconnectDelayMs;
  }

  lemma FirstDelay()
    ensures ReconnectDelayMs(0, Backoff(1000.0, 15000.0, 0.25), 0.0) == 750
  {
    var b := Backoff(1000.0, 15000.0, 0.25);
    assert Exponential(0, b) == 1000.0;
    assert Times(1000.0, 0.25) == 250.0 && Times(-1.0, 250.0) == -250.0;
    assert Offset(0, b, 0.0) == -250.0;
  }

  // ---- the controller: specification ----------------------------------------

  /** `classifyConnectFailure` by the failure's phase. */
  datatype FailurePhase = Construct | Rejected | OtherPhase

  predicate Retryable(failure: Option<FailurePhase>) {
    failure.None? || failure.value.OtherPhase?
  }

  datatype Event =
    | ConnectCalled(attempt: nat, manual: bool)
    | TimerSet(delay: nat)
    | TimerCancelled

  datatype State = State(
    wanted: bool,
    attempts: nat,
    timerPending: bool,
    stopped: bool,
    halted: bool,
    currentAttempt: nat,
    log: seq<Event>)

  const INITIAL := State(false, 0, false, false, false, 0, [])

  datatype Page = Page(visible: bool, active: bool, random: real)

  datatype Op =
    | RequestConnect
    | Dropped(failure: Option<FailurePhase>, page: Page)
    | BootstrapComplete
    | BecameVisible(page: Page)
    | Stop
    | TimerFires
    | AttemptEnds(attempt: nat, ok: bool, failure: Option<FailurePhase>, page: Page)

  function ClearTimer(s: State): State {
    if s.timerPending then s.(timerPending := false, log := s.log + [TimerCancelled]) else s
  }

  function ScheduleNext(s: State, failure: Option<FailurePhase>, page: Page, b: Backoff): State {
    if s.stopped || s.halted || !s.wanted then s
    else if !Retryable(failure) then ClearTimer(s.(halted := true))
    else if s.timerPending || page.active || !page.visible then s
    else s.(timerPending := true, log := s.log + [TimerSet(ReconnectDelayMs(s.attempts, b, page.random))])
  }

  function Attempt(s: State, manual: bool): State {
    if s.stopped || !s.wanted then s
    else s.(currentAttempt := s.currentAttempt + 1, log := s.log + [ConnectCalled(s.currentAttempt + 1, manual)])
  }

  function Step(s: State, op: Op, b: Backoff): State {
    match op
    case RequestConnect =>
      Attempt(ClearTimer(s.(wanted := true, stopped := false, halted := false, attempts := 0)), true)
    case Dropped(failure, page) => ScheduleNext(s, failure, page, b)
    case BootstrapComplete => s.(attempts := 0)
    case BecameVisible(page) => ScheduleNext(s, None, page, b)
    case Stop => ClearTimer(s.(stopped := true, wanted := false))
    case TimerFires =>
      // A cancelled timer does not fire.
      if !s.timerPending then s else Attempt(s.(timerPending := false, attempts := s.attempts + 1), false)
    case AttemptEnds(attempt, ok, failure, page) =>
      if s.stopped || attempt != s.currentAttempt || ok then s
      else ScheduleNext(s, failure, page, b)
  }

  function Run(s: State, ops: seq<Op>, b: Backoff): State
    decreases |ops|
  {
    if ops == [] then s else Run(Step(s, ops[0], b), ops[1..], b)
  }

  // ---- the controller: object -----------------------------------------------

  class Controller {
    const backoff: Backoff
    var wanted: bool
    var attempts: nat
    var timerPending: bool
    var stopped: bool
    var halted: bool
    var currentAttempt: nat
    var log: seq<Event>

    function Value(): State
      reads this
    {
      State(wanted, attempts, timerPending, stopped, halted, currentAttempt, log)
    }

    constructor (backoff: Backoff)
      ensures Value() == INITIAL && this.backoff == backoff
    {
      this.backoff := backoff;
      wanted, attempts, timerPending, stopped, halted, currentAttempt, log := false, 0, false, false, false, 0, [];
    }

    method CancelTimer()
      modifies this
      ensures Value() == ClearTimer(old(Value()))
    {
      if timerPending {
        log := log + [TimerCancelled];
        timerPending := false;
      }
    }

    method PlanNext(failure: Option<FailurePhase>, page: Page)
      modifies this
      ensures Value() == ScheduleNext(old(Value()), failure, page, backoff)
    {
      if stopped || halted {
        return;
      }
      if !wanted {
        return;
      }
      if failure.Some? && !Retryable(failure) {
        halted := true;
        CancelTimer();
        return;
      }
      if timerPending || page.active || !page.visible {
        return;
      }
      log := log + [TimerSet(ReconnectDelayMs(attempts, backoff, page.random))];
      timerPending := true;
    }

    /** Up to the first await. */
    method StartAttempt(manual: bool)
      modifies this
      ensures Value() == Attempt(old(Value()), manual)
    {
      if stopped || !wanted {
        return;
      }
      currentAttempt := currentAttempt + 1;
      log := log + [ConnectCalled(currentAttempt, manual)];
    }

    /** After the await of attempt `attempt`. */
    method FinishAttempt(attempt: nat, ok: bool, failure: Option<FailurePhase>, page: Page)
      modifies this
      ensures Value() == Step(old(Value()), AttemptEnds(attempt, ok, failure, page), backoff)
    {
      if stopped || currentAttempt != attempt || ok {
        return;
      }
      PlanNext(failure, page);
    }

    method OnRequestConnect()
      modifies this
      ensures Value() == Step(old(Value()), RequestConnect, backoff)
    {
      wanted, stopped, halted, attempts := true, false, false, 0;
      CancelTimer();
      StartAttempt(true);
    }

    method OnTimer()
      requires timerPending
      modifies this
      ensures Value() == Step(old(Value()), TimerFires, backoff)
    {
      timerPending := false;
      attempts := attempts + 1;
      StartAttempt(false);
    }

    method OnBootstrapComplete()
      modifies this
      ensures Value() == Step(old(Value()), BootstrapComplete, backoff)
    {
      attempts := 0;
    }

    method OnStop()
      modifies this
      ensures Value() == Step(old(Value()), Stop, backoff)
    {
      stopped, wanted := true, false;
      CancelTimer();
    }
  }

  // ---- runs -----------------------------------------------------------------

  /** No connect can come from here without the user asking for it. */
  predicate Quiet(s: State) {
    !s.timerPending && (s.halted || s.stopped || !s.wanted)
  }

  predicate TimerIsLicensed(s: State) {
    s.timerPending ==> s.wanted && !s.stopped && !s.halted
  }

  function Count(log: seq<Event>, which: Event -> bool): nat {
    if log == [] then 0 else (if which(log[0]) then 1 else 0) + Count(log[1..], which)
  }

  lemma {:induction false} CountOne(log: seq<Event>, e: Event, which: Event -> bool)
    ensures Count(log + [e], which) == Count(log, which) + (if which(e) then 1 else 0)
  {
    if log == [] {
      assert [e][1..] == [];
    } else {
      assert (log + [e])[1..] == log[1..] + [e];
      CountOne(log[1..], e, which);
    }
  }

  const MANUAL_CONNECT := (e: Event) => e.ConnectCalled? && e.manual
  const AUTOMATIC_CONNECT := (e: Event) => e.ConnectCalled? && !e.manual
  const TIMER_SET := (e: Event) => e.TimerSet?
  const TIMER_CANCELLED := (e: Event) => e.TimerCancelled?

  function Requests(ops: seq<Op>): nat {
    if ops == [] then 0 else (if ops[0].RequestConnect? then 1 else 0) + Requests(ops[1..])
  }

  /** Manual connects are the user's requests, and every timer set was
      cancelled, became one automatic connect, or is pending. */
  ghost predicate Balanced(s: State, requests: nat) {
    && TimerIsLicensed(s)
    && Count(s.log, MANUAL_CONNECT) == requests
    && Count(s.log, TIMER_SET) == Count(s.log, TIMER_CANCELLED) + Count(s.log, AUTOMATIC_CONNECT)
       + (if s.timerPending then 1 else 0)
  }

  lemma LogOne(log: seq<Event>, e: Event)
    ensures Count(log + [e], MANUAL_CONNECT) == Count(log, MANUAL_CONNECT) + (if MANUAL_CONNECT(e) then 1 else 0)
    ensures Count(log + [e], AUTOMATIC_CONNECT)
      == Count(log, AUTOMATIC_CONNECT) + (if AUTOMATIC_CONNECT(e) then 1 else 0)
    ensures Count(log + [e], TIMER_SET) == Count(log, TIMER_SET) + (if TIMER_SET(e) then 1 else 0)
    ensures Count(log + [e], TIMER_CANCELLED) == Count(log, TIMER_CANCELLED) + (if TIMER_CANCELLED(e) then 1 else 0)
  {
    CountOne(log, e, MANUAL_CONNECT);
    CountOne(log, e, AUTOMATIC_CONNECT);
    CountOne(log, e, TIMER_SET);
    CountOne(log, e, TIMER_CANCELLED);
  }

  lemma StepBalances(s: State, op: Op, b: Backoff, requests: nat)
    requires Balanced(s, requests)
    ensures Balanced(Step(s, op, b), requests + (if op.RequestConnect? then 1 else 0))
  {
    hide Count, ReconnectDelayMs;
    LogOne(s.log, TimerCancelled);
    LogOne(s.log + [TimerCancelled], ConnectCalled(s.currentAttempt + 1, true));
    LogOne(s.log, ConnectCalled(s.currentAttempt + 1, true));
    LogOne(s.log, ConnectCalled(s.currentAttempt + 1, false));
    if op.Dropped? || op.BecameVisible? || op.AttemptEnds? {
      LogOne(s.log, TimerSet(ReconnectDelayMs(s.attempts, b, op.page.random)));
    }
  }

  lemma {:induction false} RunBalances(s: State, ops: seq<Op>, b: Backoff, requests: nat)
    requires Balanced(s, requests)
    ensures Balanced(Run(s, ops, b), requests + Requests(ops))
    decreases |ops|
  {
    if ops != [] {
      StepBalances(s, ops[0], b, requests);
      RunBalances(Step(s, ops[0], b), ops[1..], b, requests + (if ops[0].RequestConnect? then 1 else 0));
    }
  }

  /** Over every run: exactly one manual connect for each request, and no more
      automatic connects than timers that were set and not cancelled. */
  lemma ConnectsAreAccountedFor(ops: seq<Op>, b: Backoff)
    ensures Balanced(Run(INITIAL, ops, b), Requests(ops))
  {
    assert forall which :: Count([], which) == 0;
    RunBalances(INITIAL, ops, b, 0);
  }

  /** After a halt or a stop nothing connects and no timer is set, whatever
      happens, until the user asks. */
  lemma {:induction false} QuietUntilRequested(s: State, ops: seq<Op>, b: Backoff)
    requires Quiet(s) && Requests(ops) == 0
    ensures Quiet(Run(s, ops, b)) && Run(s, ops, b).log == s.log
    decreases |ops|
  {
    if ops != [] {
      QuietUntilRequested(Step(s, ops[0], b), ops[1..], b);
    }
  }

  /** What makes it quiet: a stop, or a non-retryable failure reported by a drop
      or by the attempt that is still current. A superseded attempt's failure
      changes nothing. */
  lemma WhatMakesItQuiet(ops: seq<Op>, op: Op, b: Backoff)
    ensures var s := Run(INITIAL, ops, b);
      && (op.Stop? || (op.Dropped? && !Retryable(op.failure)) ==> Quiet(Step(s, op, b)))
      && (op.AttemptEnds? && op.attempt == s.currentAttempt && !op.ok && !Retryable(op.failure) ==>
          Quiet(Step(s, op, b)))
      && (op.AttemptEnds? && op.attempt != s.currentAttempt ==> Step(s, op, b) == s)
  {
    ConnectsAreAccountedFor(ops, b);
    hide Count;
  }
}
