/** Simulator samples at the adapter boundary: adapters/aviate/src/shm.rs. The
    frame change is over reals, without the narrowing to f32. */
module Shm {
  import opened Wrappers
  import opened Serial

  // ---- frame change ---------------------------------------------------------

  datatype Vec3 = Vec3(x: real, y: real, z: real)

  datatype Quat = Quat(w: real, x: real, y: real, z: real)

  function EnuToNed(v: Vec3): Vec3 {
    Vec3(v.y, v.x, -v.z)
  }

  /** `s` stands for the square root of one half. */
  function EnuQuatToNed(q: Quat, s: real): Quat {
    Quat(s * (q.w + q.z), s * (q.x + q.y), s * (q.x - q.y), s * (q.w - q.z))
  }

  /** Forward, right, down to forward, left, up. */
  function FrdToFlu(v: Vec3): Vec3 {
    Vec3(v.x, -v.y, -v.z)
  }

  function Hamilton(p: Quat, q: Quat): Quat {
    Quat(ProductW(p.w, p.x, p.y, p.z, q.w, q.x, q.y, q.z), ProductX(p.w, p.x, p.y, p.z, q.w, q.x, q.y, q.z),
         ProductY(p.w, p.x, p.y, p.z, q.w, q.x, q.y, q.z), ProductZ(p.w, p.x, p.y, p.z, q.w, q.x, q.y, q.z))
  }

  function ProductW(a: real, b: real, c: real, d: real, w: real, x: real, y: real, z: real): real {
    a * w - b * x - c * y - d * z
  }

  function ProductX(a: real, b: real, c: real, d: real, w: real, x: real, y: real, z: real): real {
    a * x + b * w + c * z - d * y
  }

  function ProductY(a: real, b: real, c: real, d: real, w: real, x: real, y: real, z: real): real {
    a * y - b * z + c * w + d * x
  }

  function ProductZ(a: real, b: real, c: real, d: real, w: real, x: real, y: real, z: real): real {
    a * z + b * y - c * x + d * w
  }

  function Conjugate(q: Quat): Quat {
    Quat(q.w, -q.x, -q.y, -q.z)
  }

  function Norm2(q: Quat): real {
    q.w * q.w + q.x * q.x + q.y * q.y + q.z * q.z
  }

  /** `q v q*`: the rotation, scaled by the squared norm of `q`. */
  function Rotate(q: Quat, v: Vec3): Vec3 {
    var r := Hamilton(Hamilton(q, Quat(0.0, v.x, v.y, v.z)), Conjugate(q));
    Vec3(r.x, r.y, r.z)
  }

  // The rows of the same rotation as a matrix, applied to a vector.

  function RowX(w: real, x: real, y: real, z: real, a: real, b: real, c: real): real {
    (w * w + x * x - y * y - z * z) * a + 2.0 * (x * y - w * z) * b + 2.0 * (x * z + w * y) * c
  }

  function RowY(w: real, x: real, y: real, z: real, a: real, b: real, c: real): real {
    2.0 * (x * y + w * z) * a + (w * w - x * x + y * y - z * z) * b + 2.0 * (y * z - w * x) * c
  }

  function RowZ(w: real, x: real, y: real, z: real, a: real, b: real, c: real): real {
    2.0 * (x * z - w * y) * a + 2.0 * (y * z + w * x) * b + (w * w - x * x - y * y + z * z) * c
  }

  /** `q v`, for a vector. */
  lemma Turned(w: real, x: real, y: real, z: real, a: real, b: real, c: real)
    ensures ProductW(w, x, y, z, 0.0, a, b, c) == -x * a - y * b - z * c
    ensures ProductX(w, x, y, z, 0.0, a, b, c) == w * a + y * c - z * b
    ensures ProductY(w, x, y, z, 0.0, a, b, c) == w * b - x * c + z * a
    ensures ProductZ(w, x, y, z, 0.0, a, b, c) == w * c + x * b - y * a
  {
  }

  lemma TurnedBackX(w: real, x: real, y: real, z: real, a: real, b: real, c: real)
    ensures ProductX(-x * a - y * b - z * c, w * a + y * c - z * b, w * b - x * c + z * a, w * c + x * b - y * a,
                     w, -x, -y, -z)
         == RowX(w, x, y, z, a, b, c)
  {
    assert ProductX(-x * a - y * b - z * c, w * a + y * c - z * b, w * b - x * c + z * a, w * c + x * b - y * a,
                    w, -x, -y, -z)
        == (-x * a - y * b - z * c) * -x + (w * a + y * c - z * b) * w
           + (w * b - x * c + z * a) * -z - (w * c + x * b - y * a) * -y;
    assert (-x * a - y * b - z * c) * -x + (w * a + y * c - z * b) * w
      + (w * b - x * c + z * a) * -z - (w * c + x * b - y * a) * -y
        == (w * w + x * x - y * y - z * z) * a + 2.0 * (x * y - w * z) * b + 2.0 * (x * z + w * y) * c;
    assert RowX(w, x, y, z, a, b, c) == (w * w + x * x - y * y - z * z) * a + 2.0 * (x * y - w * z) * b
      + 2.0 * (x * z + w * y) * c;
  }

  lemma TurnedBackY(w: real, x: real, y: real, z: real, a: real, b: real, c: real)
    ensures ProductY(-x * a - y * b - z * c, w * a + y * c - z * b, w * b - x * c + z * a, w * c + x * b - y * a,
                     w, -x, -y, -z)
         == RowY(w, x, y, z, a, b, c)
  {
    assert ProductY(-x * a - y * b - z * c, w * a + y * c - z * b, w * b - x * c + z * a, w * c + x * b - y * a,
                    w, -x, -y, -z)
        == (-x * a - y * b - z * c) * -y - (w * a + y * c - z * b) * -z + (w * b - x * c + z * a) * w
           + (w * c + x * b - y * a) * -x;
    assert (-x * a - y * b - z * c) * -y - (w * a + y * c - z * b) * -z + (w * b - x * c + z * a) * w
      + (w * c + x * b - y * a) * -x
        == 2.0 * (x * y + w * z) * a + (w * w - x * x + y * y - z * z) * b + 2.0 * (y * z - w * x) * c;
    assert RowY(w, x, y, z, a, b, c) == 2.0 * (x * y + w * z) * a + (w * w - x * x + y * y - z * z) * b
      + 2.0 * (y * z - w * x) * c;
  }

  lemma TurnedBackZ(w: real, x: real, y: real, z: real, a: real, b: real, c: real)
    ensures ProductZ(-x * a - y * b - z * c, w * a + y * c - z * b, w * b - x * c + z * a, w * c + x * b - y * a,
                     w, -x, -y, -z)
         == RowZ(w, x, y, z, a, b, c)
  {
    assert ProductZ(-x * a - y * b - z * c, w * a + y * c - z * b, w * b - x * c + z * a, w * c + x * b - y * a,
                    w, -x, -y, -z)
        == (-x * a - y * b - z * c) * -z + (w * a + y * c - z * b) * -y - (w * b - x * c + z * a) * -x
           + (w * c + x * b - y * a) * w;
    assert (-x * a - y * b - z * c) * -z + (w * a + y * c - z * b) * -y - (w * b - x * c + z * a) * -x
      + (w * c + x * b - y * a) * w
        == 2.0 * (x * z - w * y) * a + 2.0 * (y * z + w * x) * b + (w * w - x * x - y * y + z * z) * c;
    assert RowZ(w, x, y, z, a, b, c) == 2.0 * (x * z - w * y) * a + 2.0 * (y * z + w * x) * b
      + (w * w - x * x - y * y + z * z) * c;
  }

  lemma RotateIsMatrix(q: Quat, v: Vec3)
    ensures Rotate(q, v) == Vec3(RowX(q.w, q.x, q.y, q.z, v.x, v.y, v.z), RowY(q.w, q.x, q.y, q.z, v.x, v.y, v.z),
                                 RowZ(q.w, q.x, q.y, q.z, v.x, v.y, v.z))
  {
    Turned(q.w, q.x, q.y, q.z, v.x, v.y, v.z);
    TurnedBackX(q.w, q.x, q.y, q.z, v.x, v.y, v.z);
    TurnedBackY(q.w, q.x, q.y, q.z, v.x, v.y, v.z);
    TurnedBackZ(q.w, q.x, q.y, q.z, v.x, v.y, v.z);
    hide ProductW, ProductX, ProductY, ProductZ, RowX, RowY, RowZ;
  }

  /** A scaled quaternion rotates alike and scales by the square. */
  lemma RowXScales(s: real, w: real, x: real, y: real, z: real, a: real, b: real, c: real)
    ensures RowX(s * w, s * x, s * y, s * z, a, b, c) == (s * s) * RowX(w, x, y, z, a, b, c)
  {
    assert ((s * w) * (s * w) + (s * x) * (s * x) - (s * y) * (s * y) - (s * z) * (s * z)) * a
      + 2.0 * ((s * x) * (s * y) - (s * w) * (s * z)) * b + 2.0 * ((s * x) * (s * z) + (s * w) * (s * y)) * c
        == (s * s) * ((w * w + x * x - y * y - z * z) * a + 2.0 * (x * y - w * z) * b + 2.0 * (x * z + w * y) * c);
  }

  lemma RowYScales(s: real, w: real, x: real, y: real, z: real, a: real, b: real, c: real)
    ensures RowY(s * w, s * x, s * y, s * z, a, b, c) == (s * s) * RowY(w, x, y, z, a, b, c)
  {
    assert 2.0 * ((s * x) * (s * y) + (s * w) * (s * z)) * a
      + ((s * w) * (s * w) - (s * x) * (s * x) + (s * y) * (s * y) - (s * z) * (s * z)) * b
      + 2.0 * ((s * y) * (s * z) - (s * w) * (s * x)) * c
        == (s * s) * (2.0 * (x * y + w * z) * a + (w * w - x * x + y * y - z * z) * b + 2.0 * (y * z - w * x) * c);
  }

  lemma RowZScales(s: real, w: real, x: real, y: real, z: real, a: real, b: real, c: real)
    ensures RowZ(s * w, s * x, s * y, s * z, a, b, c) == (s * s) * RowZ(w, x, y, z, a, b, c)
  {
    assert 2.0 * ((s * x) * (s * z) - (s * w) * (s * y)) * a + 2.0 * ((s * y) * (s * z) + (s * w) * (s * x)) * b
      + ((s * w) * (s * w) - (s * x) * (s * x) - (s * y) * (s * y) + (s * z) * (s * z)) * c
        == (s * s) * (2.0 * (x * z - w * y) * a + 2.0 * (y * z + w * x) * b + (w * w - x * x - y * y + z * z) * c);
  }

  /** The mixed components: rows swapped and negated as the world axes are,
      columns as the body axes are. */
  lemma RowsMix(w: real, x: real, y: real, z: real, a: real, b: real, c: real)
    ensures RowX(w + z, x + y, x - y, w - z, a, b, c) == 2.0 * RowY(w, x, y, z, a, -b, -c)
    ensures RowY(w + z, x + y, x - y, w - z, a, b, c) == 2.0 * RowX(w, x, y, z, a, -b, -c)
    ensures RowZ(w + z, x + y, x - y, w - z, a, b, c) == -2.0 * RowZ(w, x, y, z, a, -b, -c)
  {
    assert ((w + z) * (w + z) + (x + y) * (x + y) - (x - y) * (x - y) - (w - z) * (w - z)) * a
      + 2.0 * ((x + y) * (x - y) - (w + z) * (w - z)) * b + 2.0 * ((x + y) * (w - z) + (w + z) * (x - y)) * c
        == 2.0 * (2.0 * (x * y + w * z) * a + (w * w - x * x + y * y - z * z) * -b + 2.0 * (y * z - w * x) * -c);
    assert 2.0 * ((x + y) * (x - y) + (w + z) * (w - z)) * a
      + ((w + z) * (w + z) - (x + y) * (x + y) + (x - y) * (x - y) - (w - z) * (w - z)) * b
      + 2.0 * ((x - y) * (w - z) - (w + z) * (x + y)) * c
        == 2.0 * ((w * w + x * x - y * y - z * z) * a + 2.0 * (x * y - w * z) * -b + 2.0 * (x * z + w * y) * -c);
    assert 2.0 * ((x + y) * (w - z) - (w + z) * (x - y)) * a + 2.0 * ((x - y) * (w - z) + (w + z) * (x + y)) * b
      + ((w + z) * (w + z) - (x + y) * (x + y) - (x - y) * (x - y) + (w - z) * (w - z)) * c
        == -2.0 * (2.0 * (x * z - w * y) * a + 2.0 * (y * z + w * x) * -b + (w * w - x * x - y * y + z * z) * -c);
  }

  /** The converted quaternion turns body FRD vectors into world NED as the
      original turns body FLU vectors into world ENU, for every quaternion and
      every vector. */
  lemma FrameChangePreservesRotation(q: Quat, v: Vec3, s: real)
    requires s * s == 0.5
    ensures Rotate(EnuQuatToNed(q, s), v) == EnuToNed(Rotate(q, FrdToFlu(v)))
  {
    var n := EnuQuatToNed(q, s);
    var u := FrdToFlu(v);
    RotateIsMatrix(n, v);
    RotateIsMatrix(q, u);
    hide Rotate, RowX, RowY, RowZ;
    var (w, x, y, z) := (q.w + q.z, q.x + q.y, q.x - q.y, q.w - q.z);
    assert n.w == s * w && n.x == s * x && n.y == s * y && n.z == s * z;
    RowXScales(s, w, x, y, z, v.x, v.y, v.z);
    RowYScales(s, w, x, y, z, v.x, v.y, v.z);
    RowZScales(s, w, x, y, z, v.x, v.y, v.z);
    RowsMix(q.w, q.x, q.y, q.z, v.x, v.y, v.z);
    HalfOf(s * s, RowX(w, x, y, z, v.x, v.y, v.z));
    HalfOf(s * s, RowY(w, x, y, z, v.x, v.y, v.z));
    HalfOf(s * s, RowZ(w, x, y, z, v.x, v.y, v.z));
    assert RowX(n.w, n.x, n.y, n.z, v.x, v.y, v.z) == 0.5 * RowX(w, x, y, z, v.x, v.y, v.z);
    assert RowY(n.w, n.x, n.y, n.z, v.x, v.y, v.z) == 0.5 * RowY(w, x, y, z, v.x, v.y, v.z);
    assert RowZ(n.w, n.x, n.y, n.z, v.x, v.y, v.z) == 0.5 * RowZ(w, x, y, z, v.x, v.y, v.z);
    assert RowX(w, x, y, z, v.x, v.y, v.z) == 2.0 * RowY(q.w, q.x, q.y, q.z, u.x, u.y, u.z);
  }

  lemma HalfOf(half: real, r: real)
    requires half == 0.5
    ensures half * r == 0.5 * r
  {
  }

  lemma HalfProduct(s: real, a: real, b: real)
    requires s * s == 0.5
    ensures (s * a) * (s * b) == 0.5 * (a * b)
  {
    assert (s * a) * (s * b) == (s * s) * (a * b);
  }

  lemma FrameChangePreservesNorm(q: Quat, s: real)
    requires s * s == 0.5
    ensures Norm2(EnuQuatToNed(q, s)) == Norm2(q)
  {
    HalfProduct(s, q.w + q.z, q.w + q.z);
    HalfProduct(s, q.x + q.y, q.x + q.y);
    HalfProduct(s, q.x - q.y, q.x - q.y);
    HalfProduct(s, q.w - q.z, q.w - q.z);
  }

  /** The product the documentation names, with half a turn about east-north and
      half a turn about forward as its outer factors. A half turn is the same
      rotation under either sign; with this one the product is exact. */
  lemma FrameChangeIsTheNamedProduct(q: Quat, s: real)
    ensures EnuQuatToNed(q, s) == Hamilton(Hamilton(Quat(0.0, s, s, 0.0), q), Quat(0.0, -1.0, 0.0, 0.0))
  {
    NamedLeft(q.w, q.x, q.y, q.z, s);
    NamedRight(-s * q.x - s * q.y, s * q.w + s * q.z, s * q.w - s * q.z, s * q.y - s * q.x);
    hide ProductW, ProductX, ProductY, ProductZ;
  }

  lemma NamedLeft(w: real, x: real, y: real, z: real, s: real)
    ensures ProductW(0.0, s, s, 0.0, w, x, y, z) == -s * x - s * y
    ensures ProductX(0.0, s, s, 0.0, w, x, y, z) == s * w + s * z
    ensures ProductY(0.0, s, s, 0.0, w, x, y, z) == s * w - s * z
    ensures ProductZ(0.0, s, s, 0.0, w, x, y, z) == s * y - s * x
  {
  }

  lemma NamedRight(w: real, x: real, y: real, z: real)
    ensures ProductW(w, x, y, z, 0.0, -1.0, 0.0, 0.0) == x
    ensures ProductX(w, x, y, z, 0.0, -1.0, 0.0, 0.0) == -w
    ensures ProductY(w, x, y, z, 0.0, -1.0, 0.0, 0.0) == -z
    ensures ProductZ(w, x, y, z, 0.0, -1.0, 0.0, 0.0) == y
  {
  }

  /** Its outer factors are the frame changes themselves. */
  lemma OuterFactorsAreTheFrameChanges(v: Vec3, s: real)
    requires s * s == 0.5
    ensures Rotate(Quat(0.0, s, s, 0.0), v) == EnuToNed(v)
    ensures Rotate(Quat(0.0, -1.0, 0.0, 0.0), v) == FrdToFlu(v)
  {
    RotateIsMatrix(Quat(0.0, s, s, 0.0), v);
    RotateIsMatrix(Quat(0.0, -1.0, 0.0, 0.0), v);
    HalfTurns(v.x, v.y, v.z, s);
    hide Rotate, RowX, RowY, RowZ;
  }

  lemma HalfTurns(a: real, b: real, c: real, s: real)
    requires s * s == 0.5
    ensures RowX(0.0, s, s, 0.0, a, b, c) == b && RowY(0.0, s, s, 0.0, a, b, c) == a
      && RowZ(0.0, s, s, 0.0, a, b, c) == -c
    ensures RowX(0.0, -1.0, 0.0, 0.0, a, b, c) == a && RowY(0.0, -1.0, 0.0, 0.0, a, b, c) == -b
      && RowZ(0.0, -1.0, 0.0, 0.0, a, b, c) == -c
  {
  }

  // ---- freshness: specification ---------------------------------------------

  type u64 = x: nat | x < 2 * HALF_U64

  datatype State = State(lastStep: Option<u64>, lastTimeUs: Option<u64>, lastProgress: nat, quarantined: bool)

  datatype Observation = Advancing | Unchanged(frozen: nat) | Quarantined

  datatype Sample = Sample(step: u64, timeUs: u64, now: nat)

  function New(now: nat): State {
    State(None, None, now, false)
  }

  function Since(now: nat, before: nat): nat {
    if now < before then 0 else now - before
  }

  function Verdict(s: State, o: Sample): Observation {
    if s.quarantined then Quarantined
    else
      match (s.lastStep, s.lastTimeUs)
      case (Some(step), Some(time)) =>
        if o.step == step && o.timeUs == time then Unchanged(Since(o.now, s.lastProgress))
        else if IsNewer(o.step, step, HALF_U64) && o.timeUs > time then Advancing
        else Quarantined
      case (None, None) => Advancing
      case _ => Quarantined
  }

  function Observe(s: State, o: Sample): State {
    match Verdict(s, o)
    case Advancing => State(Some(o.step), Some(o.timeUs), o.now, s.quarantined)
    case Unchanged(_) => s
    case Quarantined => s.(quarantined := true)
  }

  class ShmFreshness {
    var lastStep: Option<u64>
    var lastTimeUs: Option<u64>
    var lastProgress: nat
    var quarantined: bool

    function Value(): State
      reads this
    {
      State(lastStep, lastTimeUs, lastProgress, quarantined)
    }

    constructor (now: nat)
      ensures Value() == New(now)
    {
      lastStep, lastTimeUs, lastProgress, quarantined := None, None, now, false;
    }

    method ObserveAt(step: u64, timeUs: u64, now: nat) returns (observation: Observation)
      modifies this
      ensures observation == Verdict(old(Value()), Sample(step, timeUs, now))
      ensures Value() == Observe(old(Value()), Sample(step, timeUs, now))
    {
      if quarantined {
        return Quarantined;
      }
      if lastStep.Some? && lastTimeUs.Some? && step == lastStep.value && timeUs == lastTimeUs.value {
        observation := Unchanged(Since(now, lastProgress));
      } else if lastStep.Some? && lastTimeUs.Some? && IsNewer(step, lastStep.value, HALF_U64)
        && timeUs > lastTimeUs.value {
        observation := Advancing;
      } else if lastStep.None? && lastTimeUs.None? {
        observation := Advancing;
      } else {
        quarantined := true;
        observation := Quarantined;
      }
      if observation == Advancing {
        lastStep := Some(step);
        lastTimeUs := Some(timeUs);
        lastProgress := now;
      }
    }
  }

  // ---- freshness: runs ------------------------------------------------------

  function After(start: nat, run: seq<Sample>): State {
    if run == [] then New(start) else Observe(After(start, run[..|run| - 1]), run[|run| - 1])
  }

  /** The samples of the run that advanced, in order. */
  function Accepted(start: nat, run: seq<Sample>): seq<Sample> {
    if run == [] then []
    else
      var before := Accepted(start, run[..|run| - 1]);
      if Verdict(After(start, run[..|run| - 1]), run[|run| - 1]).Advancing? then before + [run[|run| - 1]] else before
  }

  function Steps(samples: seq<Sample>): seq<nat> {
    seq(|samples|, i requires 0 <= i < |samples| => samples[i].step)
  }

  ghost predicate TimesIncrease(samples: seq<Sample>) {
    forall i, j :: 0 <= i < j < |samples| ==> samples[i].timeUs < samples[j].timeUs
  }

  ghost predicate LastIs(s: State, start: nat, accepted: seq<Sample>) {
    if accepted == [] then s.lastStep == None && s.lastTimeUs == None && s.lastProgress == start
    else
      var last := accepted[|accepted| - 1];
      s.lastStep == Some(last.step) && s.lastTimeUs == Some(last.timeUs) && s.lastProgress == last.now
  }

  /** Over every run the tracker remembers its latest advance, simulation times
      only grow, and each step counter is serial-newer than the one before. */
  lemma {:induction false} AdvancesAreOrdered(start: nat, run: seq<Sample>)
    ensures LastIs(After(start, run), start, Accepted(start, run))
    ensures TimesIncrease(Accepted(start, run))
    ensures Chain(Steps(Accepted(start, run)), HALF_U64)
  {
    if run != [] {
      var front, o := run[..|run| - 1], run[|run| - 1];
      AdvancesAreOrdered(start, front);
      if Verdict(After(start, front), o).Advancing? {
        Extend(Accepted(start, front), o);
      }
    }
  }

  lemma Extend(before: seq<Sample>, o: Sample)
    requires TimesIncrease(before) && Chain(Steps(before), HALF_U64)
    requires before != [] ==>
      before[|before| - 1].timeUs < o.timeUs && IsNewer(o.step, before[|before| - 1].step, HALF_U64)
    ensures TimesIncrease(before + [o]) && Chain(Steps(before + [o]), HALF_U64)
  {
    assert Steps(before + [o]) == Steps(before) + [o.step];
    hide IsNewer;
  }

  /** Quarantine is for good. */
  lemma {:induction false} QuarantineIsAbsorbing(s: State, run: seq<Sample>, o: Sample)
    requires s.quarantined
    ensures Verdict(ObserveAll(s, run), o) == Quarantined
    decreases |run|
  {
    if run != [] {
      QuarantineIsAbsorbing(Observe(s, run[0]), run[1..], o);
    }
  }

  function ObserveAll(s: State, run: seq<Sample>): State
    decreases |run|
  {
    if run == [] then s else ObserveAll(Observe(s, run[0]), run[1..])
  }

  /** Showing again any pair that was accepted before the latest one
      quarantines, however the step counter has wrapped since. */
  lemma ReplayQuarantines(start: nat, run: seq<Sample>, k: nat, o: Sample)
    requires k < |Accepted(start, run)| - 1
    requires o.step == Accepted(start, run)[k].step && o.timeUs == Accepted(start, run)[k].timeUs
    ensures Verdict(After(start, run), o) == Quarantined && Observe(After(start, run), o).quarantined
  {
    AdvancesAreOrdered(start, run);
  }

  /** What each verdict means in terms of the run so far. */
  lemma VerdictsMean(start: nat, run: seq<Sample>, o: Sample)
    requires !After(start, run).quarantined
    ensures var accepted, verdict := Accepted(start, run), Verdict(After(start, run), o);
      && (accepted == [] ==> verdict == Advancing)
      && (accepted != [] ==>
            var last := accepted[|accepted| - 1];
            && (verdict.Unchanged? <==> o.step == last.step && o.timeUs == last.timeUs)
            && (verdict.Unchanged? ==> verdict.frozen == Since(o.now, last.now))
            && (verdict.Advancing? <==> o.timeUs > last.timeUs && IsNewer(o.step, last.step, HALF_U64)))
  {
    AdvancesAreOrdered(start, run);
  }

  /** A step counter is accepted a second time only after all 2^64 values were
      passed over, with at least two other advances in between. */
  lemma StepsRepeatOnlyAfterAFullWrap(start: nat, run: seq<Sample>, i: nat, j: nat)
    requires i < j < |Accepted(start, run)|
    requires Accepted(start, run)[i].step == Accepted(start, run)[j].step
    ensures j - i >= 3
    ensures var steps := Steps(Accepted(start, run))[i..j + 1];
      Wraps(steps) > 0 && Travelled(steps, HALF_U64) == Wraps(steps) * (2 * HALF_U64)
  {
    AdvancesAreOrdered(start, run);
    hide Chain, Accepted, Wraps, Travelled;
    var s := Steps(Accepted(start, run))[i..j + 1];
    assert s[0] == Accepted(start, run)[i].step && s[j - i] == Accepted(start, run)[j].step;
    ChainSlice(Steps(Accepted(start, run)), i, j + 1, HALF_U64);
    ReturningGoesAllTheWayRound(s, HALF_U64);
  }
}
