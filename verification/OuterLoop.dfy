/** The host-side velocity loop and its radio pulses:
    adapters/betaflight/src/outer_loop.rs and rc.rs. Arithmetic is over reals;
    the trigonometry comes in as functions with the identities they obey. */
module OuterLoop {
  import opened Wrappers
  import opened Bytes

  // ---- trigonometry ---------------------------------------------------------

  datatype Maths = Maths(
    sin: real -> real,
    cos: real -> real,
    hypot: (real, real) -> real,
    atan: real -> real,
    degrees: real -> real)

  ghost predicate Lawful(m: Maths) {
    && (forall a :: Square(m.sin(a)) + Square(m.cos(a)) == 1.0)
    && (forall x, y :: m.hypot(x, y) >= 0.0 && Square(m.hypot(x, y)) == Square(x) + Square(y))
  }

  function Square(x: real): real {
    x * x
  }

  function Abs(x: real): real {
    if x < 0.0 then -x else x
  }

  // ---- constants ------------------------------------------------------------

  const GRAVITY := 9.80665
  const NEUTRAL_FRACTION := 0.05
  const POSITION_GAIN := 0.8
  const HOLD_SPEED_LIMIT := 1.0
  const CAPTURE_SPEED := 0.3
  const VELOCITY_GAIN := 1.8
  const VELOCITY_INTEGRAL_GAIN := 0.4
  const VELOCITY_INTEGRAL_LIMIT := 1.5
  const TILT_LIMIT_DEG := 25.0
  const ALTITUDE_GAIN := 0.5
  const ALTITUDE_SPEED_LIMIT := 1.0
  const CLIMB_GAIN := 0.05
  const CLIMB_INTEGRAL_GAIN := 0.05
  const HOVER_GUESS := 0.5
  const HOVER_MIN := 0.2
  const HOVER_MAX := 0.8
  const HOVER_SETTLED_CLIMB := 0.2
  const HOVER_SETTLED_ALTITUDE := 0.3
  const HOVER_LEARN_RATE := 1.0
  const TAKEOFF_CLIMB := 0.15
  const LANDED_ALTITUDE := 0.3
  const LANDED_DWELL_S := 1.0
  const ANGLE_LIMIT_DEG := 30.0
  const MAX_RATE_DPS := 670.0

  // ---- entities -------------------------------------------------------------

  datatype Vec = Vec(north: real, east: real)

  datatype Body = Body(forward: real, right: real)

  datatype Demand = Demand(forward: real, right: real, up: real, yawRate: real)

  datatype Horizontal = Horizontal(position: Vec, velocity: Vec)

  datatype Estimate = Estimate(heading: real, roll: real, pitch: real, horizontal: Option<Horizontal>, altitude: real,
                               climbRate: real)

  datatype Envelope = Envelope(horizontal: real, vertical: real, yawRate: real)

  datatype Sticks = Sticks(roll: real, pitch: real, throttle: real, yaw: real, arm: bool, angle: bool)

  const IDLE := Sticks(0.0, 0.0, 0.0, 0.0, false, true)

  /** The loop's memory. The steady-hover estimator, which nothing below reads,
      is not part of it. */
  datatype State = State(
    flying: bool,
    settledS: real,
    holdPosition: Option<Vec>,
    holdAltitude: Option<real>,
    integral: Vec,
    hover: real,
    settledHover: Option<real>)

  const LANDED := State(false, 0.0, None, None, Vec(0.0, 0.0), HOVER_GUESS, None)

  // ---- specification --------------------------------------------------------

  predicate Settled(s: State, d: Demand, e: Estimate) {
    && e.altitude < LANDED_ALTITUDE
    && Abs(e.climbRate) < 0.1
    && d.up <= 0.0
    && (s.holdAltitude.Some? ==> s.holdAltitude.value < LANDED_ALTITUDE)
  }

  function PhaseStep(s: State, d: Demand, e: Estimate, dt: real): State {
    if !s.flying then
      if d.up >= TAKEOFF_CLIMB then
        s.(flying := true, settledS := 0.0, holdAltitude := None, holdPosition := None, integral := Vec(0.0, 0.0))
      else s
    else
      var settledS := if Settled(s, d, e) then s.settledS + dt else 0.0;
      s.(settledS := settledS, flying := !(settledS >= LANDED_DWELL_S && d.up < 0.0))
  }

  function ToBody(m: Maths, heading: real, v: Vec): Body {
    TurnLeft(v.north, v.east, m.cos(heading), m.sin(heading))
  }

  function TurnLeft(x: real, y: real, c: real, s: real): Body {
    Body(x * c + y * s, -x * s + y * c)
  }

  function ToNed(m: Maths, heading: real, forward: real, right: real): Vec {
    TurnRight(forward, right, m.cos(heading), m.sin(heading))
  }

  function TurnRight(x: real, y: real, c: real, s: real): Vec {
    Vec(x * c - y * s, x * s + y * c)
  }

  /** The position the hold steers to: captured once slow. */
  function Captured(s: State, h: Horizontal, m: Maths): Option<Vec> {
    if s.holdPosition.None? && m.hypot(h.velocity.north, h.velocity.east) < CAPTURE_SPEED then Some(h.position)
    else s.holdPosition
  }

  function HoldVelocity(hold: Option<Vec>, h: Horizontal, m: Maths): Vec {
    match hold
    case None => Vec(0.0, 0.0)
    case Some(p) =>
      var pull := Vec(POSITION_GAIN * (p.north - h.position.north), POSITION_GAIN * (p.east - h.position.east));
      var magnitude := m.hypot(pull.north, pull.east);
      if magnitude > HOLD_SPEED_LIMIT then
        var scale := HOLD_SPEED_LIMIT / magnitude;
        Vec(pull.north * scale, pull.east * scale)
      else pull
  }

  function Integrated(integral: real, error: real, dt: real): real {
    Clamp(integral + VELOCITY_INTEGRAL_GAIN * error * dt, -VELOCITY_INTEGRAL_LIMIT, VELOCITY_INTEGRAL_LIMIT)
  }

  predicate NeutralHorizontal(env: Envelope, d: Demand, m: Maths) {
    m.hypot(d.forward, d.right) < env.horizontal * NEUTRAL_FRACTION
  }

  /** The new state and the forward and right acceleration demands. */
  function HorizontalStep(s: State, env: Envelope, d: Demand, e: Estimate, dt: real, m: Maths): (r: (State, Body))
    ensures r.0 == s.(holdPosition := r.0.holdPosition, integral := r.0.integral)
  {
    if e.horizontal.None? then
      (s.(holdPosition := None, integral := Vec(0.0, 0.0)),
       Body(d.forward * VELOCITY_GAIN * 0.5, d.right * VELOCITY_GAIN * 0.5))
    else
      var h := e.horizontal.value;
      var neutral := NeutralHorizontal(env, d, m);
      var hold := if neutral then Captured(s, h, m) else None;
      var target := if neutral then HoldVelocity(hold, h, m) else ToNed(m, e.heading, d.forward, d.right);
      var error := Vec(target.north - h.velocity.north, target.east - h.velocity.east);
      var integral := Vec(Integrated(s.integral.north, error.north, dt), Integrated(s.integral.east, error.east, dt));
      (s.(holdPosition := hold, integral := integral),
       ToBody(m, e.heading, Vec(VELOCITY_GAIN * error.north + integral.north,
                                VELOCITY_GAIN * error.east + integral.east)))
  }

  predicate NeutralVertical(env: Envelope, d: Demand) {
    Abs(d.up) < env.vertical * NEUTRAL_FRACTION
  }

  function Tilt(e: Estimate, m: Maths): (r: real)
    ensures 0.7 <= r <= 1.0
  {
    Clamp(m.cos(e.roll) * m.cos(e.pitch), 0.7, 1.0)
  }

  /** The settled-hover estimate after a throttle was chosen. */
  function Learned(s: State, neutral: bool, e: Estimate, level: real, dt: real): Option<real> {
    if neutral && Abs(e.climbRate) < HOVER_SETTLED_CLIMB
       && s.holdAltitude.Some? && Abs(s.holdAltitude.value - e.altitude) < HOVER_SETTLED_ALTITUDE
    then
      var rate := if HOVER_LEARN_RATE * dt < 1.0 then HOVER_LEARN_RATE * dt else 1.0;
      var learned :=
        if s.settledHover.Some? then s.settledHover.value + (level - s.settledHover.value) * rate else level;
      Some(Clamp(learned, HOVER_MIN, HOVER_MAX))
    else s.settledHover
  }

  function ClimbTarget(hold: real, altitude: real): real {
    Clamp(ALTITUDE_GAIN * (hold - altitude), -ALTITUDE_SPEED_LIMIT, ALTITUDE_SPEED_LIMIT)
  }

  function HoverAfter(hover: real, error: real, dt: real): real {
    Clamp(hover + CLIMB_INTEGRAL_GAIN * error * dt, HOVER_MIN, HOVER_MAX)
  }

  function Throttle(hover: real, error: real, tilt: real): real
    requires tilt > 0.0
  {
    Clamp((hover + CLIMB_GAIN * error) / tilt, 0.0, 1.0)
  }

  /** The throttle that would hold this height with the quad level. */
  function Level(throttle: real, tilt: real): real {
    throttle * tilt
  }

  /** The new state and the throttle. */
  function VerticalStep(s: State, env: Envelope, d: Demand, e: Estimate, dt: real, m: Maths): (r: (State, real))
    ensures r.0 == s.(holdAltitude := r.0.holdAltitude, hover := r.0.hover, settledHover := r.0.settledHover)
  {
    var neutral := NeutralVertical(env, d);
    var hold := if neutral then s.holdAltitude.GetOr(e.altitude) else 0.0;
    var targetClimb := if neutral then ClimbTarget(hold, e.altitude) else d.up;
    var error := targetClimb - e.climbRate;
    var hover := HoverAfter(s.hover, error, dt);
    var tilt := Tilt(e, m);
    var throttle := Throttle(hover, error, tilt);
    var t := s.(hover := hover, holdAltitude := if neutral then Some(hold) else None);
    (t.(settledHover := Learned(t, neutral, e, Level(throttle, tilt), dt)), throttle)
  }

  function StickTilt(accel: real, m: Maths): real {
    Clamp(m.degrees(m.atan(accel / GRAVITY)), -TILT_LIMIT_DEG, TILT_LIMIT_DEG) / ANGLE_LIMIT_DEG
  }

  function ClampedDt(dt: real): real {
    Clamp(dt, 0.0, 0.1)
  }

  function Update(s: State, env: Envelope, d: Demand, e: Estimate, rawDt: real, m: Maths): (State, Sticks) {
    var dt := ClampedDt(rawDt);
    var s1 := PhaseStep(s, d, e, dt);
    if !s1.flying then (s1, IDLE)
    else
      var (s2, accel) := HorizontalStep(s1, env, d, e, dt, m);
      var (s3, throttle) := VerticalStep(s2, env, d, e, dt, m);
      (s3, Sticks(StickTilt(accel.right, m), StickTilt(accel.forward, m), throttle,
                  Clamp(m.degrees(d.yawRate) / MAX_RATE_DPS, -1.0, 1.0), false, true))
  }

  function Reset(s: State): State {
    LANDED.(hover := s.hover, settledHover := s.settledHover)
  }

  function Resume(s: State, throttle: real, airborne: bool): State {
    LANDED.(flying := airborne, hover := Clamp(throttle, HOVER_MIN, HOVER_MAX), settledHover := s.settledHover)
  }

  // ---- the loop object ------------------------------------------------------

  class Loop {
    const envelope: Envelope
    const maths: Maths
    var flying: bool
    var settledS: real
    var holdPosition: Option<Vec>
    var holdAltitude: Option<real>
    var integral: Vec
    var hover: real
    var settledHover: Option<real>

    function Value(): State
      reads this
    {
      State(flying, settledS, holdPosition, holdAltitude, integral, hover, settledHover)
    }

    constructor (envelope: Envelope, maths: Maths)
      ensures Value() == LANDED && this.envelope == envelope && this.maths == maths
    {
      this.envelope, this.maths := envelope, maths;
      flying, settledS, holdPosition, holdAltitude := false, 0.0, None, None;
      integral, hover, settledHover := Vec(0.0, 0.0), HOVER_GUESS, None;
    }

    method UpdatePhase(d: Demand, e: Estimate, dt: real)
      modifies this
      ensures Value() == PhaseStep(old(Value()), d, e, dt)
    {
      if !flying {
        if d.up >= TAKEOFF_CLIMB {
          flying := true;
          settledS := 0.0;
          holdAltitude := None;
          holdPosition := None;
          integral := Vec(0.0, 0.0);
        }
        return;
      }
      settledS := if Settled(Value(), d, e) then settledS + dt else 0.0;
      if settledS >= LANDED_DWELL_S && d.up < 0.0 {
        flying := false;
      }
    }

    method Hold(h: Horizontal) returns (target: Vec)
      modifies this`holdPosition
      ensures holdPosition == Captured(old(Value()), h, maths)
      ensures target == HoldVelocity(holdPosition, h, maths)
    {
      var speed := maths.hypot(h.velocity.north, h.velocity.east);
      if holdPosition.None? && speed < CAPTURE_SPEED {
        holdPosition := Some(h.position);
      }
      if holdPosition.None? {
        return Vec(0.0, 0.0);
      }
      var hold := holdPosition.value;
      var pull := Vec(POSITION_GAIN * (hold.north - h.position.north), POSITION_GAIN * (hold.east - h.position.east));
      var magnitude := maths.hypot(pull.north, pull.east);
      if magnitude > HOLD_SPEED_LIMIT {
        var scale := HOLD_SPEED_LIMIT / magnitude;
        return Vec(pull.north * scale, pull.east * scale);
      } else {
        return pull;
      }
    }

    method StepHorizontal(d: Demand, e: Estimate, dt: real) returns (accel: Body)
      modifies this
      ensures (Value(), accel) == HorizontalStep(old(Value()), envelope, d, e, dt, maths)
    {
      hide Captured, HoldVelocity, ToNed, ToBody, Integrated, NeutralHorizontal;
      if e.horizontal.None? {
        holdPosition := None;
        integral := Vec(0.0, 0.0);
        return Body(d.forward * VELOCITY_GAIN * 0.5, d.right * VELOCITY_GAIN * 0.5);
      }
      var h := e.horizontal.value;
      var target;
      if NeutralHorizontal(envelope, d, maths) {
        target := Hold(h);
      } else {
        holdPosition := None;
        target := ToNed(maths, e.heading, d.forward, d.right);
      }
      var error := Vec(target.north - h.velocity.north, target.east - h.velocity.east);
      integral := Vec(Integrated(integral.north, error.north, dt), Integrated(integral.east, error.east, dt));
      accel := ToBody(maths, e.heading, Vec(VELOCITY_GAIN * error.north + integral.north,
                                            VELOCITY_GAIN * error.east + integral.east));
    }

    method StepVertical(d: Demand, e: Estimate, dt: real) returns (throttle: real)
      modifies this
      ensures (Value(), throttle) == VerticalStep(old(Value()), envelope, d, e, dt, maths)
    {
      hide Learned, Tilt, NeutralVertical, ClimbTarget, HoverAfter, Throttle, Level;
      var neutral := NeutralVertical(envelope, d);
      var targetClimb;
      if neutral {
        holdAltitude := Some(holdAltitude.GetOr(e.altitude));
        targetClimb := ClimbTarget(holdAltitude.value, e.altitude);
      } else {
        holdAltitude := None;
        targetClimb := d.up;
      }
      var error := targetClimb - e.climbRate;
      hover := HoverAfter(hover, error, dt);
      var tilt := Tilt(e, maths);
      throttle := Throttle(hover, error, tilt);
      settledHover := Learned(Value(), neutral, e, Level(throttle, tilt), dt);
    }

    method Step(d: Demand, e: Estimate, rawDt: real) returns (sticks: Sticks)
      modifies this
      ensures (Value(), sticks) == Update(old(Value()), envelope, d, e, rawDt, maths)
    {
      hide PhaseStep, HorizontalStep, VerticalStep, StickTilt, ClampedDt;
      var dt := ClampedDt(rawDt);
      UpdatePhase(d, e, dt);
      var yaw := Clamp(maths.degrees(d.yawRate) / MAX_RATE_DPS, -1.0, 1.0);
      if !flying {
        return IDLE;
      }
      var accel := StepHorizontal(d, e, dt);
      var throttle := StepVertical(d, e, dt);
      return Sticks(StickTilt(accel.right, maths), StickTilt(accel.forward, maths), throttle, yaw, false, true);
    }

    method Restart()
      modifies this
      ensures Value() == Reset(old(Value()))
    {
      flying, settledS, holdPosition, holdAltitude, integral := false, 0.0, None, None, Vec(0.0, 0.0);
    }

    method TakeOver(throttle: real, airborne: bool)
      modifies this
      ensures Value() == Resume(old(Value()), throttle, airborne)
    {
      flying, settledS, holdPosition, holdAltitude, integral := airborne, 0.0, None, None, Vec(0.0, 0.0);
      hover := Clamp(throttle, HOVER_MIN, HOVER_MAX);
    }
  }

  // ---- runs -----------------------------------------------------------------

  datatype Op =
    | Fly(demand: Demand, estimate: Estimate, dt: real)
    | Disarm
    | TakeOver(throttle: real, airborne: bool)

  function StepOp(s: State, op: Op, env: Envelope, m: Maths): State {
    match op
    case Fly(d, e, dt) => Update(s, env, d, e, dt, m).0
    case Disarm => Reset(s)
    case TakeOver(throttle, airborne) => Resume(s, throttle, airborne)
  }

  /** The state after `ops` from a landed loop. */
  function After(ops: seq<Op>, env: Envelope, m: Maths): State {
    if ops == [] then LANDED else StepOp(After(ops[..|ops| - 1], env, m), ops[|ops| - 1], env, m)
  }

  predicate InHoverRange(x: real) {
    HOVER_MIN <= x <= HOVER_MAX
  }

  predicate Safe(s: State) {
    && InHoverRange(s.hover)
    && (s.settledHover.Some? ==> InHoverRange(s.settledHover.value))
    && Abs(s.integral.north) <= VELOCITY_INTEGRAL_LIMIT
    && Abs(s.integral.east) <= VELOCITY_INTEGRAL_LIMIT
  }

  lemma HorizontalKeeps(s: State, env: Envelope, d: Demand, e: Estimate, dt: real, m: Maths)
    requires Safe(s)
    ensures Safe(HorizontalStep(s, env, d, e, dt, m).0)
  {
    hide HoldVelocity, Captured, ToNed, ToBody, NeutralHorizontal;
  }

  lemma VerticalKeeps(s: State, env: Envelope, d: Demand, e: Estimate, dt: real, m: Maths)
    requires Safe(s)
    ensures var (t, throttle) := VerticalStep(s, env, d, e, dt, m); Safe(t) && 0.0 <= throttle <= 1.0
  {
    hide Tilt, NeutralVertical;
  }

  predicate SticksWithin(k: Sticks) {
    && Abs(k.roll) <= 25.0 / 30.0
    && Abs(k.pitch) <= 25.0 / 30.0
    && 0.0 <= k.throttle <= 1.0
    && Abs(k.yaw) <= 1.0
    && !k.arm && k.angle
  }

  lemma UpdateKeeps(s: State, env: Envelope, d: Demand, e: Estimate, dt: real, m: Maths)
    requires Safe(s)
    ensures Safe(Update(s, env, d, e, dt, m).0)
    ensures SticksWithin(Update(s, env, d, e, dt, m).1)
  {
    var s1 := PhaseStep(s, d, e, ClampedDt(dt));
    assert Safe(s1);
    var s2 := HorizontalStep(s1, env, d, e, ClampedDt(dt), m).0;
    HorizontalKeeps(s1, env, d, e, ClampedDt(dt), m);
    VerticalKeeps(s2, env, d, e, ClampedDt(dt), m);
    hide HorizontalStep, VerticalStep, PhaseStep, Safe;
  }

  /** Over every run of updates, disarms and take-overs the learned throttles
      and the integrals stay in their ranges, and so do the sticks of the next
      update. */
  lemma {:induction false} RunsStaySafe(ops: seq<Op>, env: Envelope, m: Maths, d: Demand, e: Estimate, dt: real)
    ensures Safe(After(ops, env, m))
    ensures SticksWithin(Update(After(ops, env, m), env, d, e, dt, m).1)
    decreases |ops|
  {
    if ops != [] {
      var last := ops[|ops| - 1];
      RunsStaySafe(ops[..|ops| - 1], env, m, d, e, dt);
      if last.Fly? {
        UpdateKeeps(After(ops[..|ops| - 1], env, m), env, last.demand, last.estimate, last.dt, m);
      }
    }
    hide Update;
    UpdateKeeps(After(ops, env, m), env, d, e, dt, m);
  }

  // ---- landing --------------------------------------------------------------

  /** Step `i` of the run is a flying update that finds the quad settled. */
  predicate SettledAt(ops: seq<Op>, i: nat, env: Envelope, m: Maths)
    requires i < |ops|
  {
    && ops[i].Fly?
    && After(ops[..i], env, m).flying
    && Settled(After(ops[..i], env, m), ops[i].demand, ops[i].estimate)
  }

  /** Where the unbroken settled streak at the end of the run began. */
  function StreakStart(ops: seq<Op>, env: Envelope, m: Maths): (start: nat)
    ensures start <= |ops|
    decreases |ops|
  {
    if ops == [] || !SettledAt(ops, |ops| - 1, env, m) then |ops|
    else StreakStart(ops[..|ops| - 1], env, m)
  }

  /** The time the updates of the run took, each counted as at most 0.1 s. */
  function Elapsed(ops: seq<Op>): real {
    if ops == [] then 0.0
    else (if ops[|ops| - 1].Fly? then ClampedDt(ops[|ops| - 1].dt) else 0.0) + Elapsed(ops[..|ops| - 1])
  }

  lemma {:induction false} StreakIsUnbroken(ops: seq<Op>, env: Envelope, m: Maths, i: nat)
    requires StreakStart(ops, env, m) <= i < |ops|
    ensures SettledAt(ops, i, env, m)
    decreases |ops|
  {
    var front := ops[..|ops| - 1];
    if i < |ops| - 1 {
      StreakIsUnbroken(front, env, m, i);
      assert front[..i] == ops[..i];
    }
  }

  lemma {:induction false} ElapsedIsBounded(ops: seq<Op>)
    ensures 0.0 <= Elapsed(ops) <= 0.1 * |ops| as real
  {
    if ops != [] {
      ElapsedIsBounded(ops[..|ops| - 1]);
    }
  }

  lemma UpdatePhaseOnly(s: State, env: Envelope, d: Demand, e: Estimate, dt: real, m: Maths)
    ensures var t, p := Update(s, env, d, e, dt, m).0, PhaseStep(s, d, e, ClampedDt(dt));
      t.flying == p.flying && t.settledS == p.settledS
  {
    hide PhaseStep;
  }

  /** While flying, the dwell clock is the length of the current streak. */
  lemma {:induction false} ClockIsTheStreak(ops: seq<Op>, env: Envelope, m: Maths)
    requires After(ops, env, m).flying
    ensures After(ops, env, m).settledS == Elapsed(ops[StreakStart(ops, env, m)..])
    decreases |ops|
  {
    var n := |ops| - 1;
    var front, last := ops[..n], ops[n];
    var before := After(front, env, m);
    if last.Fly? {
      UpdatePhaseOnly(before, env, last.demand, last.estimate, last.dt, m);
    }
    hide Update, ClampedDt, Settled;
    if SettledAt(ops, n, env, m) {
      ClockIsTheStreak(front, env, m);
      StreakGrows(ops, StreakStart(front, env, m));
    }
  }

  lemma StreakGrows(ops: seq<Op>, start: nat)
    requires start < |ops| && ops[|ops| - 1].Fly?
    ensures Elapsed(ops[start..]) == ClampedDt(ops[|ops| - 1].dt) + Elapsed(ops[..|ops| - 1][start..])
  {
    var streak := ops[start..];
    assert streak[|streak| - 1] == ops[|ops| - 1];
    assert streak[..|streak| - 1] == ops[..|ops| - 1][start..];
  }

  /** An update takes a flying loop to the ground exactly when it closes an
      unbroken streak of settled updates that lasted the dwell and its demand
      sinks; such a streak is at least ten updates long. */
  lemma LandsExactlyAfterTheDwell(ops: seq<Op>, env: Envelope, m: Maths)
    requires |ops| > 0 && ops[|ops| - 1].Fly? && After(ops[..|ops| - 1], env, m).flying
    ensures var streak := ops[StreakStart(ops, env, m)..];
      var landed := !After(ops, env, m).flying;
      && (landed <==> Elapsed(streak) >= LANDED_DWELL_S && ops[|ops| - 1].demand.up < 0.0)
      && (landed ==> |streak| >= 10)
  {
    var n := |ops| - 1;
    var front, last := ops[..n], ops[n];
    var before := After(front, env, m);
    UpdatePhaseOnly(before, env, last.demand, last.estimate, last.dt, m);
    ClockIsTheStreak(front, env, m);
    ElapsedIsBounded(ops[StreakStart(ops, env, m)..]);
    if SettledAt(ops, n, env, m) {
      StreakGrows(ops, StreakStart(front, env, m));
    }
    hide Update, ClampedDt, Settled;
  }

  // ---- position hold and frames ---------------------------------------------

  /** The vector from one position to another, times `k`. */
  function Along(from: Vec, to: Vec, k: real): Vec {
    Vec(k * (to.north - from.north), k * (to.east - from.east))
  }

  /** The hold asks for zero velocity until a position is captured, then for a
      pull straight at it, never faster than 1 m/s, and unscaled when slower. */
  lemma HoldPullsHomeSlowly(hold: Option<Vec>, h: Horizontal, m: Maths)
    requires Lawful(m)
    ensures var v := HoldVelocity(hold, h, m);
      && Square(v.north) + Square(v.east) <= Square(HOLD_SPEED_LIMIT)
      && (hold.None? ==> v == Vec(0.0, 0.0))
      && (hold.Some? ==> exists k :: 0.0 < k <= POSITION_GAIN && v == Along(h.position, hold.value, k))
  {
    if hold.Some? {
      var gap := Vec(hold.value.north - h.position.north, hold.value.east - h.position.east);
      var pull := Vec(POSITION_GAIN * gap.north, POSITION_GAIN * gap.east);
      var magnitude := m.hypot(pull.north, pull.east);
      var v := HoldVelocity(hold, h, m);
      assert magnitude >= 0.0 && Square(magnitude) == Square(pull.north) + Square(pull.east);
      if magnitude > HOLD_SPEED_LIMIT {
        var scale := HOLD_SPEED_LIMIT / magnitude;
        assert v == Vec(pull.north * scale, pull.east * scale);
        UnitScale(pull, magnitude, scale);
        Regroup(gap, scale);
        assert 0.0 < POSITION_GAIN * scale <= POSITION_GAIN;
        assert v == Along(h.position, hold.value, POSITION_GAIN * scale);
      } else {
        SmallSquare(magnitude);
        assert v == Along(h.position, hold.value, POSITION_GAIN);
      }
    }
  }

  lemma SmallSquare(x: real)
    requires 0.0 <= x <= HOLD_SPEED_LIMIT
    ensures Square(x) <= Square(HOLD_SPEED_LIMIT)
  {
    assert x * x <= x * 1.0;
  }

  lemma UnitScale(pull: Vec, magnitude: real, scale: real)
    requires magnitude > HOLD_SPEED_LIMIT && scale == HOLD_SPEED_LIMIT / magnitude
    requires Square(magnitude) == Square(pull.north) + Square(pull.east)
    ensures 0.0 < scale <= 1.0
    ensures Square(pull.north * scale) + Square(pull.east * scale) == Square(HOLD_SPEED_LIMIT)
  {
    assert scale * magnitude == HOLD_SPEED_LIMIT;
    assert Square(pull.north * scale) == Square(pull.north) * Square(scale);
    assert Square(pull.east * scale) == Square(pull.east) * Square(scale);
    assert Square(magnitude) * Square(scale) == Square(magnitude * scale);
  }

  lemma Regroup(gap: Vec, scale: real)
    ensures (POSITION_GAIN * gap.north) * scale == (POSITION_GAIN * scale) * gap.north
    ensures (POSITION_GAIN * gap.east) * scale == (POSITION_GAIN * scale) * gap.east
  {
  }

  /** Turning a body demand to north and east and back returns it, and keeps
      its speed: full forward stick flies forward at every heading. */
  lemma FramesAgree(m: Maths, heading: real, forward: real, right: real)
    requires Lawful(m)
    ensures ToBody(m, heading, ToNed(m, heading, forward, right)) == Body(forward, right)
    ensures var v := ToNed(m, heading, forward, right);
      Square(v.north) + Square(v.east) == Square(forward) + Square(right)
  {
    assert Square(m.sin(heading)) + Square(m.cos(heading)) == 1.0;
    Rotations(forward, right, m.cos(heading), m.sin(heading));
    hide TurnLeft, TurnRight;
  }

  lemma Rotations(f: real, r: real, c: real, s: real)
    requires Square(s) + Square(c) == 1.0
    ensures var v := TurnRight(f, r, c, s);
      && TurnLeft(v.north, v.east, c, s) == Body(f, r)
      && Square(v.north) + Square(v.east) == Square(f) + Square(r)
  {
    var v := TurnRight(f, r, c, s);
    var one := c * c + s * s;
    assert TurnLeft(v.north, v.east, c, s).forward == (f * c - r * s) * c + (f * s + r * c) * s;
    assert TurnLeft(v.north, v.east, c, s).right == -(f * c - r * s) * s + (f * s + r * c) * c;
    assert (f * c - r * s) * c + (f * s + r * c) * s == f * one;
    assert -(f * c - r * s) * s + (f * s + r * c) * c == r * one;
    assert Square(f * c - r * s) + Square(f * s + r * c) == (f * f + r * r) * one;
    assert one == 1.0 && f * one == f && r * one == r && (f * f + r * r) * one == f * f + r * r;
  }

  // ---- radio pulses ---------------------------------------------------------

  const CENTER_US := 1500
  const LOW_US := 1000
  const HIGH_US := 1800

  /** `f64::round`: halves go away from zero. */
  function RoundAway(x: real): int {
    if x < 0.0 then -(-x + 0.5).Floor else (x + 0.5).Floor
  }

  /** The `as u16` cast saturates. */
  function Pulse(base: int, offset: real): int {
    var us := base + RoundAway(offset);
    if us < 0 then 0 else if us > 0xFFFF then 0xFFFF else us
  }

  function Bipolar(v: real): int {
    Pulse(CENTER_US, Clamp(v, -1.0, 1.0) * 500.0)
  }

  function Channels(k: Sticks): seq<int> {
    [Bipolar(k.roll), Bipolar(k.pitch), Pulse(LOW_US, Clamp(k.throttle, 0.0, 1.0) * 2.0 * 500.0), Bipolar(k.yaw),
     if k.arm then HIGH_US else LOW_US, if k.angle then HIGH_US else LOW_US, CENTER_US, CENTER_US]
  }

  /** Any sticks at all give legal pulses, none further than half a microsecond
      from the exact value, and a stick moved further never moves its pulse
      back. */
  lemma PulsesAreLegalAndClose(k: Sticks, l: Sticks)
    ensures forall i :: 0 <= i < 6 ==> 1000 <= Channels(k)[i] <= 2000
    ensures Abs(Channels(k)[0] as real - (1500.0 + 500.0 * Clamp(k.roll, -1.0, 1.0))) <= 0.5
    ensures Abs(Channels(k)[1] as real - (1500.0 + 500.0 * Clamp(k.pitch, -1.0, 1.0))) <= 0.5
    ensures Abs(Channels(k)[2] as real - (1000.0 + 1000.0 * Clamp(k.throttle, 0.0, 1.0))) <= 0.5
    ensures Abs(Channels(k)[3] as real - (1500.0 + 500.0 * Clamp(k.yaw, -1.0, 1.0))) <= 0.5
    ensures k.roll <= l.roll ==> Channels(k)[0] <= Channels(l)[0]
    ensures k.throttle <= l.throttle ==> Channels(k)[2] <= Channels(l)[2]
  {
    BipolarIsClose(k.pitch, 0.0);
    BipolarIsClose(k.yaw, 0.0);
    BipolarIsClose(k.roll, l.roll);
    PulseIsClose(LOW_US, Clamp(k.throttle, 0.0, 1.0) * 2.0 * 500.0, Clamp(l.throttle, 0.0, 1.0) * 2.0 * 500.0);
    hide Pulse, Bipolar;
  }

  lemma BipolarIsClose(v: real, more: real)
    ensures 1000 <= Bipolar(v) <= 2000
    ensures Abs(Bipolar(v) as real - (1500.0 + 500.0 * Clamp(v, -1.0, 1.0))) <= 0.5
    ensures v <= more ==> Bipolar(v) <= Bipolar(more)
  {
    PulseIsClose(CENTER_US, Clamp(v, -1.0, 1.0) * 500.0, Clamp(more, -1.0, 1.0) * 500.0);
    hide Pulse;
  }

  lemma PulseIsClose(base: int, offset: real, more: real)
    requires 1000 <= base <= 1500 && -500.0 <= offset <= 1000.0 && -500.0 <= more <= 1000.0
    requires base == 1500 ==> offset <= 500.0
    requires base == 1000 ==> offset >= 0.0
    ensures Abs(Pulse(base, offset) as real - (base as real + offset)) <= 0.5
    ensures base in {1000, 1500} ==> 1000 <= Pulse(base, offset) <= 2000
    ensures offset <= more ==> Pulse(base, offset) <= Pulse(base, more)
  {
  }

  /** What the tilt limit is in pulses: an update never asks for more than
      417 microseconds off centre in roll or pitch, and a grounded one cuts the
      throttle. */
  lemma UpdatesInPulses(s: State, env: Envelope, d: Demand, e: Estimate, dt: real, m: Maths)
    requires Safe(s)
    ensures var c := Channels(Update(s, env, d, e, dt, m).1);
      1083 <= c[0] <= 1917 && 1083 <= c[1] <= 1917 && c[4] == LOW_US && c[5] == HIGH_US
    ensures !Update(s, env, d, e, dt, m).0.flying ==> Channels(Update(s, env, d, e, dt, m).1)[2] == LOW_US
  {
    UpdateKeeps(s, env, d, e, dt, m);
    hide HorizontalStep, VerticalStep, StickTilt;
  }
}
