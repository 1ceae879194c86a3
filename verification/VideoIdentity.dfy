/** Capture identity of video frames: clients/web/video-identity.js. The
    diagnostic counters are not part of this model. */
module VideoIdentity {
  import opened Wrappers
  import opened WireBounds
  import opened Serial

  // ---- frames ---------------------------------------------------------------

  /** Frame metadata as decoded, before any check. */
  datatype Meta = Meta(
    sourceId: Js, sourceEpoch: Js, sequence: Js, cameraId: Js, calibrationId: Js,
    captureTimeNanos: Js, mappingOffsetNanos: Js, clockErrorBoundNanos: Js,
    receiveTimeNanos: Js, publicationTimeNanos: Js,
    sourceIncarnation: Js, captureClock: Js, mappingAvailable: Js, mappingTargetClock: Js)

  const CLOCK_VEHICLE_BOOT := Num(1.0)
  const CLOCK_SIMULATION := Num(2.0)
  const CLOCK_HOST_MONOTONIC := Num(3.0)
  const CLOCK_UNSPECIFIED := Num(0.0)

  predicate KnownClock(v: Js) {
    v == CLOCK_VEHICLE_BOOT || v == CLOCK_SIMULATION || v == CLOCK_HOST_MONOTONIC
  }

  function MetaFields(m: Meta): seq<FieldSpec> {
    [FieldSpec("sourceId", U8, m.sourceId),
     FieldSpec("sourceEpoch", U32, m.sourceEpoch),
     FieldSpec("sequence", U32, m.sequence),
     FieldSpec("cameraId", U32, m.cameraId),
     FieldSpec("calibrationId", U32, m.calibrationId),
     FieldSpec("captureTimeNanos", U64, m.captureTimeNanos),
     FieldSpec("mappingOffsetNanos", I64, m.mappingOffsetNanos),
     FieldSpec("clockErrorBoundNanos", U64, m.clockErrorBoundNanos),
     FieldSpec("receiveTimeNanos", U64, m.receiveTimeNanos),
     FieldSpec("publicationTimeNanos", U64, m.publicationTimeNanos)]
  }

  /** `None` is a value that is not an object. */
  function MetaFault(meta: Option<Meta>): Option<Fault> {
    match meta
    case None => Some(Fault("meta", Malformed))
    case Some(m) =>
      var fault := FirstFaultOf(MetaFields(m));
      if fault.Some? then fault
      else if !IsIncarnation(m.sourceIncarnation) then Some(Fault("sourceIncarnation", Malformed))
      else if !KnownClock(m.captureClock) then Some(Fault("captureClock", Malformed))
      else if !(if m.mappingAvailable == True then KnownClock(m.mappingTargetClock)
                else m.mappingTargetClock == CLOCK_UNSPECIFIED) then
        Some(Fault("mappingTargetClock", Malformed))
      else None
  }

  type u8 = x: nat | x <= U8_MAX
  type u32 = x: nat | x <= U32_MAX
  type u64 = x: nat | x <= U64_MAX
  type i64 = x: int | I64_MIN <= x <= I64_MAX
  type hex32 = s: string | IsHex32(s) witness "00000000000000000000000000000000"

  datatype Clock = Absent | VehicleBoot | Simulation | HostMonotonic

  /** Frame metadata that passed every check, as numbers. */
  datatype Frame = Frame(
    sourceId: u8, epoch: u32, sequence: u32, cameraId: u32, calibrationId: u32,
    captureTime: u64, mappingOffset: i64, clockErrorBound: u64,
    receiveTime: u64, publicationTime: u64,
    incarnation: hex32, captureClock: Clock, mappingAvailable: bool, mappingTarget: Clock)

  predicate Lawful(f: Frame) {
    && f.captureClock != Absent
    && (f.mappingAvailable <==> f.mappingTarget != Absent)
  }

  function ClockValue(c: Clock): Js {
    match c
    case Absent => CLOCK_UNSPECIFIED
    case VehicleBoot => CLOCK_VEHICLE_BOOT
    case Simulation => CLOCK_SIMULATION
    case HostMonotonic => CLOCK_HOST_MONOTONIC
  }

  function ClockOf(v: Js): Clock {
    if v == CLOCK_VEHICLE_BOOT then VehicleBoot
    else if v == CLOCK_SIMULATION then Simulation
    else if v == CLOCK_HOST_MONOTONIC then HostMonotonic
    else Absent
  }

  /** The metadata a frame decodes to; `unavailable` is whatever stands in
      `mappingAvailable` when it is not `true`. */
  function MetaOf(f: Frame, unavailable: Js): Meta {
    Meta(Num(f.sourceId as real), Num(f.epoch as real), Num(f.sequence as real), Num(f.cameraId as real),
         Num(f.calibrationId as real), Big(f.captureTime), Big(f.mappingOffset), Big(f.clockErrorBound),
         Big(f.receiveTime), Big(f.publicationTime), Text(f.incarnation), ClockValue(f.captureClock),
         if f.mappingAvailable then True else unavailable, ClockValue(f.mappingTarget))
  }

  lemma FieldsAccepted(m: Meta)
    ensures FirstFaultOf(MetaFields(m)).None? <==>
      && IsUintInRange(m.sourceId, U8_MAX) && IsUintInRange(m.sourceEpoch, U32_MAX)
      && IsUintInRange(m.sequence, U32_MAX)
      && IsUintInRange(m.cameraId, U32_MAX) && IsUintInRange(m.calibrationId, U32_MAX)
      && IsU64(m.captureTimeNanos) && IsI64(m.mappingOffsetNanos) && IsU64(m.clockErrorBoundNanos)
      && IsU64(m.receiveTimeNanos) && IsU64(m.publicationTimeNanos)
  {
    var s := MetaFields(m);
    FirstFaultIsFirst(s);
    hide FirstFaultOf;
    assert |s| == 10;
    assert (forall i :: 0 <= i < |s| ==> Accepts(s[i].kind, s[i].value)) ==>
      && Accepts(s[0].kind, s[0].value) && Accepts(s[1].kind, s[1].value) && Accepts(s[2].kind, s[2].value)
      && Accepts(s[3].kind, s[3].value) && Accepts(s[4].kind, s[4].value) && Accepts(s[5].kind, s[5].value)
      && Accepts(s[6].kind, s[6].value) && Accepts(s[7].kind, s[7].value) && Accepts(s[8].kind, s[8].value)
      && Accepts(s[9].kind, s[9].value);
  }

  /** The frame behind checked metadata. */
  function FrameOf(m: Meta): (f: Frame)
    requires MetaFault(Some(m)).None?
    ensures Lawful(f) && m == MetaOf(f, m.mappingAvailable)
  {
    FieldsAccepted(m);
    hide FirstFaultOf;
    Frame(m.sourceId.value.Floor, m.sourceEpoch.value.Floor, m.sequence.value.Floor, m.cameraId.value.Floor,
          m.calibrationId.value.Floor, m.captureTimeNanos.big, m.mappingOffsetNanos.big, m.clockErrorBoundNanos.big,
          m.receiveTimeNanos.big, m.publicationTimeNanos.big, m.sourceIncarnation.text, ClockOf(m.captureClock),
          m.mappingAvailable == True, ClockOf(m.mappingTargetClock))
  }

  /** Metadata passes every check exactly when it spells a lawful frame. */
  lemma CheckedExactlyWhenLawful(m: Meta)
    ensures MetaFault(Some(m)).None? <==> exists f, u :: Lawful(f) && u != True && m == MetaOf(f, u)
  {
    hide FirstFaultOf;
    if MetaFault(Some(m)).None? {
      var f := FrameOf(m);
      var u := if f.mappingAvailable then Other else m.mappingAvailable;
      assert m == MetaOf(f, u);
    }
    if f, u :| Lawful(f) && u != True && m == MetaOf(f, u) {
      FieldsAccepted(m);
    }
  }

  // ---- the conformal gate ---------------------------------------------------

  const DEFAULT_MAX_CLOCK_ERROR_NANOS: int := 2_000_000

  datatype Options = Options(recognizedCalibrations: set<u32>, maxClockErrorNanos: int)

  const DEFAULTS := Options({}, DEFAULT_MAX_CLOCK_ERROR_NANOS)

  /** `mapCaptureTime` for two big integers. */
  function MapCaptureTime(captureTime: int, offset: int): Option<u64> {
    var mapped := captureTime + offset;
    if mapped < 0 || mapped > U64_MAX then None else Some(mapped)
  }

  datatype GateReason =
    | MalformedMeta(fault: Fault)
    | MappingUnavailable
    | ClockMismatch
    | ErrorExceedsBudget
    | MappedTimeOverflow
    | Ready
    | CalibrationUnavailable

  datatype Gate = Gate(mappingValid: bool, conformalReady: bool, bound: Option<u64>, mapped: Option<u64>,
                       reason: GateReason)

  function Closed(reason: GateReason): Gate {
    Gate(false, false, None, None, reason)
  }

  /** `snapshotClock` is absent when there is no snapshot. */
  function ConformalGate(meta: Option<Meta>, snapshotClock: Option<Clock>, options: Options): Gate {
    if MetaFault(meta).Some? then Closed(MalformedMeta(MetaFault(meta).value))
    else
      var f := FrameOf(meta.value);
      if !f.mappingAvailable then Closed(MappingUnavailable)
      else if snapshotClock != Some(f.mappingTarget) then Closed(ClockMismatch)
      else if f.clockErrorBound > options.maxClockErrorNanos then Closed(ErrorExceedsBudget)
      else
        match MapCaptureTime(f.captureTime, f.mappingOffset)
        case None => Closed(MappedTimeOverflow)
        case Some(mapped) =>
          var ready := f.calibrationId != 0 && f.calibrationId in options.recognizedCalibrations;
          Gate(true, ready, Some(f.clockErrorBound), Some(mapped), if ready then Ready else CalibrationUnavailable)
  }

  /** Without a calibration registry the gate never opens. */
  lemma DefaultGateIsShut(meta: Option<Meta>, snapshotClock: Option<Clock>, budget: int)
    ensures !ConformalGate(meta, snapshotClock, DEFAULTS.(maxClockErrorNanos := budget)).conformalReady
  {
    hide MetaFault;
  }

  // ---- the tracker: specification -------------------------------------------

  datatype Source = Source(
    cameraId: u32, calibrationId: u32, incarnation: hex32, epoch: u32,
    lastSequence: u32, lastCaptureTime: u64, lastReceiveTime: u64)

  datatype Reason = Accepted | Duplicate | Reordered | StaleEpoch | WrongCamera | MalformedFrame

  datatype Admission = Admission(reason: Reason, discontinuity: bool, fault: Option<Fault>)

  type Sources = map<u8, Source>

  function Established(f: Frame): Source {
    Source(f.cameraId, f.calibrationId, f.incarnation, f.epoch, f.sequence, f.captureTime, f.receiveTime)
  }

  /** What becomes of a checked frame of a source. */
  function Judge(known: Option<Source>, f: Frame): (Reason, bool) {
    match known
    case None => (Accepted, true)
    case Some(s) =>
      if f.cameraId != s.cameraId then (WrongCamera, false)
      else if f.incarnation != s.incarnation then (Accepted, true)
      else if f.calibrationId != s.calibrationId then (Accepted, true)
      else if f.epoch != s.epoch then
        if IsNewer(f.epoch, s.epoch, HALF_U32) then (Accepted, true) else (StaleEpoch, false)
      else if f.sequence == s.lastSequence then (Duplicate, false)
      else if IsNewer(f.sequence, s.lastSequence, HALF_U32) then (Accepted, false)
      else (Reordered, false)
  }

  function Known(sources: Sources, id: u8): Option<Source> {
    if id in sources then Some(sources[id]) else None
  }

  function Admit(sources: Sources, meta: Option<Meta>): Admission {
    var fault := MetaFault(meta);
    if fault.Some? then Admission(MalformedFrame, false, fault)
    else
      var f := FrameOf(meta.value);
      var (reason, discontinuity) := Judge(Known(sources, f.sourceId), f);
      Admission(reason, discontinuity, None)
  }

  function Next(sources: Sources, meta: Option<Meta>): Sources {
    if Admit(sources, meta).reason != Accepted then sources
    else
      var f := FrameOf(meta.value);
      sources[f.sourceId := Established(f)]
  }

  // ---- the tracker: object --------------------------------------------------

  class VideoIdentityTracker {
    var sources: Sources

    constructor ()
      ensures sources == map[]
    {
      sources := map[];
    }

    method AdmitFrame(meta: Option<Meta>) returns (r: Admission)
      modifies this
      ensures r == Admit(old(sources), meta) && sources == Next(old(sources), meta)
    {
      hide IsNewer, FirstFaultOf;
      var fault := MetaFault(meta);
      if fault.Some? {
        return Admission(MalformedFrame, false, fault);
      }
      var f := FrameOf(meta.value);
      if f.sourceId !in sources {
        Establish(f);
        return Admission(Accepted, true, None);
      }
      var state := sources[f.sourceId];
      if f.cameraId != state.cameraId {
        return Admission(WrongCamera, false, None);
      }
      if f.incarnation != state.incarnation {
        Establish(f);
        return Admission(Accepted, true, None);
      }
      if f.calibrationId != state.calibrationId {
        Establish(f);
        return Admission(Accepted, true, None);
      }
      r := AdmitWithinIncarnation(state, f);
    }

    method AdmitWithinIncarnation(state: Source, f: Frame) returns (r: Admission)
      requires f.sourceId in sources && state == sources[f.sourceId]
      requires f.cameraId == state.cameraId && f.incarnation == state.incarnation
        && f.calibrationId == state.calibrationId
      modifies this
      ensures r == Admission(Judge(Some(state), f).0, Judge(Some(state), f).1, None)
      ensures sources == if r.reason == Accepted then old(sources)[f.sourceId := Established(f)] else old(sources)
    {
      hide IsNewer;
      if f.epoch != state.epoch {
        if !IsNewer(f.epoch, state.epoch, HALF_U32) {
          return Admission(StaleEpoch, false, None);
        }
        Establish(f);
        return Admission(Accepted, true, None);
      }
      if f.sequence == state.lastSequence {
        return Admission(Duplicate, false, None);
      }
      if !IsNewer(f.sequence, state.lastSequence, HALF_U32) {
        return Admission(Reordered, false, None);
      }
      sources := sources[f.sourceId := state.(lastSequence := f.sequence, lastCaptureTime := f.captureTime,
                                              lastReceiveTime := f.receiveTime)];
      return Admission(Accepted, false, None);
    }

    method Establish(f: Frame)
      modifies this
      ensures sources == old(sources)[f.sourceId := Established(f)]
    {
      sources := sources[f.sourceId := Established(f)];
    }
  }

  // ---- the tracker: runs ----------------------------------------------------

  function After(run: seq<Option<Meta>>): Sources {
    if run == [] then map[] else Next(After(run[..|run| - 1]), run[|run| - 1])
  }

  /** The frames of `id` accepted since its last discontinuity, that one
      included. */
  function Segment(run: seq<Option<Meta>>, id: u8): seq<Frame> {
    if run == [] then []
    else
      var before, meta := Segment(run[..|run| - 1], id), run[|run| - 1];
      var admission := Admit(After(run[..|run| - 1]), meta);
      if admission.reason != Accepted || FrameOf(meta.value).sourceId != id then before
      else if admission.discontinuity then [FrameOf(meta.value)]
      else before + [FrameOf(meta.value)]
  }

  function Sequences(frames: seq<Frame>): seq<nat> {
    seq(|frames|, i requires 0 <= i < |frames| => frames[i].sequence)
  }

  ghost predicate OneTimeline(frames: seq<Frame>) {
    forall i, j :: 0 <= i < j < |frames| ==>
      && frames[i].cameraId == frames[j].cameraId
      && frames[i].incarnation == frames[j].incarnation
      && frames[i].calibrationId == frames[j].calibrationId
      && frames[i].epoch == frames[j].epoch
  }

  /** Over every run, what the tracker knows of a source is its last accepted
      frame, whole; since the last discontinuity camera, incarnation,
      calibration and epoch are one, and each sequence is serial-newer than the
      one before. */
  lemma {:induction false} SegmentsAreChains(run: seq<Option<Meta>>, id: u8)
    ensures var frames := Segment(run, id);
      && Known(After(run), id) == (if frames == [] then None else Some(Established(frames[|frames| - 1])))
      && OneTimeline(frames)
      && Chain(Sequences(frames), HALF_U32)
  {
    if run != [] {
      var front, meta := run[..|run| - 1], run[|run| - 1];
      SegmentsAreChains(front, id);
      hide MetaFault;
      var before := Segment(front, id);
      if Admit(After(front), meta).reason == Accepted && FrameOf(meta.value).sourceId == id {
        var f := FrameOf(meta.value);
        if Admit(After(front), meta).discontinuity {
          assert Sequences([f]) == [f.sequence];
        } else {
          Extend(before, f);
        }
      }
      hide OneTimeline, Chain, Judge;
    }
  }

  lemma Extend(before: seq<Frame>, f: Frame)
    requires before != [] && OneTimeline(before) && Chain(Sequences(before), HALF_U32)
    requires Judge(Some(Established(before[|before| - 1])), f) == (Accepted, false)
    ensures OneTimeline(before + [f]) && Chain(Sequences(before + [f]), HALF_U32)
  {
    assert Sequences(before + [f]) == Sequences(before) + [f.sequence];
    hide IsNewer;
  }

  /** A source keeps the camera of its first accepted frame for good. */
  lemma {:induction false} CameraNeverChanges(run: seq<Option<Meta>>, id: u8, n: nat)
    requires n <= |run| && id in After(run[..n])
    ensures id in After(run) && After(run)[id].cameraId == After(run[..n])[id].cameraId
    decreases |run|
  {
    if n < |run| {
      var front := run[..|run| - 1];
      assert front[..n] == run[..n];
      CameraNeverChanges(front, id, n);
      hide MetaFault, IsNewer;
    } else {
      assert run[..n] == run;
    }
  }

  /** Within a segment a sequence number comes back only after the whole u32
      range has passed by, with at least two other accepted frames between. */
  lemma SequencesRepeatOnlyAfterAFullWrap(run: seq<Option<Meta>>, id: u8, i: nat, j: nat)
    requires i < j < |Segment(run, id)|
    requires Segment(run, id)[i].sequence == Segment(run, id)[j].sequence
    ensures j - i >= 3
    ensures var between := Sequences(Segment(run, id))[i..j + 1];
      Wraps(between) > 0 && Travelled(between, HALF_U32) == Wraps(between) * (2 * HALF_U32)
  {
    SegmentsAreChains(run, id);
    hide Chain, Segment, Judge, OneTimeline, Wraps, Travelled, After, Known, MetaFault, Established;
    var between := Sequences(Segment(run, id))[i..j + 1];
    assert between[0] == Segment(run, id)[i].sequence;
    assert between[j - i] == Segment(run, id)[j].sequence;
    ChainSlice(Sequences(Segment(run, id)), i, j + 1, HALF_U32);
    ReturningGoesAllTheWayRound(between, HALF_U32);
  }

  /** A frame shown again at once is never admitted again, and so cannot refresh
      what is known of its source. */
  lemma ReplayIsRefused(run: seq<Option<Meta>>, meta: Option<Meta>)
    ensures var sources := Next(After(run), meta);
      Admit(sources, meta).reason != Accepted && Next(sources, meta) == sources
  {
    hide MetaFault, IsNewer;
  }

  lemma {:induction false} SegmentIsOfItsSource(run: seq<Option<Meta>>, id: u8)
    ensures forall i :: 0 <= i < |Segment(run, id)| ==> Segment(run, id)[i].sourceId == id
  {
    if run != [] {
      SegmentIsOfItsSource(run[..|run| - 1], id);
      hide MetaFault, Judge, FrameOf;
    }
  }

  /** Showing again any frame of the current segment, however many frames lie
      between: while the sequences have travelled less than the whole u32 range
      since, it is admitted if and only if they have travelled more than half of
      it. A refused frame changes nothing. */
  lemma EarlierFramesAreStale(run: seq<Option<Meta>>, id: u8, i: nat, meta: Meta)
    requires i < |Segment(run, id)|
    requires MetaFault(Some(meta)).None? && FrameOf(meta) == Segment(run, id)[i]
    requires Travelled(Sequences(Segment(run, id))[i..], HALF_U32) < 2 * HALF_U32
    ensures Admit(After(run), Some(meta)).reason == Accepted <==>
      Travelled(Sequences(Segment(run, id))[i..], HALF_U32) > HALF_U32
    ensures Admit(After(run), Some(meta)).reason != Accepted ==>
      Admit(After(run), Some(meta)).reason in {Duplicate, Reordered} && Next(After(run), Some(meta)) == After(run)
  {
    var frames := Segment(run, id);
    SegmentsAreChains(run, id);
    SegmentIsOfItsSource(run, id);
    hide Segment, After, MetaFault, Known, Admit, Next, Established, FrameOf;
    TravelSince(frames, i);
    OneLine(frames, i);
    ShownAgain(After(run), frames[|frames| - 1], meta);
  }

  lemma OneLine(frames: seq<Frame>, i: nat)
    requires OneTimeline(frames) && i < |frames|
    ensures OnTheLineOf(frames[i], frames[|frames| - 1])
  {
  }

  predicate OnTheLineOf(f: Frame, last: Frame) {
    f.cameraId == last.cameraId && f.incarnation == last.incarnation && f.calibrationId == last.calibrationId
      && f.epoch == last.epoch
  }

  /** A frame of the current timeline is judged by its sequence alone. */
  lemma ShownAgain(sources: Sources, last: Frame, meta: Meta)
    requires MetaFault(Some(meta)).None? && Known(sources, FrameOf(meta).sourceId) == Some(Established(last))
    requires OnTheLineOf(FrameOf(meta), last)
    requires FrameOf(meta).sequence == last.sequence ==> !IsNewer(FrameOf(meta).sequence, last.sequence, HALF_U32)
    ensures Admit(sources, Some(meta)).reason == Accepted <==> IsNewer(FrameOf(meta).sequence, last.sequence, HALF_U32)
    ensures Admit(sources, Some(meta)).reason != Accepted ==>
      Admit(sources, Some(meta)).reason in {Duplicate, Reordered} && Next(sources, Some(meta)) == sources
  {
    hide IsNewer, MetaFault, Known;
  }

  lemma TravelSince(frames: seq<Frame>, i: nat)
    requires i < |frames| && Chain(Sequences(frames), HALF_U32)
    requires Travelled(Sequences(frames)[i..], HALF_U32) < 2 * HALF_U32
    ensures IsNewer(frames[i].sequence, frames[|frames| - 1].sequence, HALF_U32) <==>
      Travelled(Sequences(frames)[i..], HALF_U32) > HALF_U32
    ensures frames[i].sequence == frames[|frames| - 1].sequence ==>
      !IsNewer(frames[i].sequence, frames[|frames| - 1].sequence, HALF_U32)
  {
    var since := Sequences(frames)[i..];
    assert since[0] == frames[i].sequence && since[|since| - 1] == frames[|frames| - 1].sequence;
    hide Sequences, Chain, Travelled;
    ChainSlice(Sequences(frames), i, |frames|, HALF_U32);
    assert Sequences(frames)[i..|frames|] == since;
    StartLooksNewerExactlyPastHalf(since, HALF_U32);
  }

  /** Across a discontinuity there is no such memory: a frame of any other
      incarnation or calibration of the same camera is admitted, an earlier one
      included. */
  lemma OtherIncarnationsAreAdmitted(sources: Sources, meta: Meta)
    requires MetaFault(Some(meta)).None? && FrameOf(meta).sourceId in sources
    requires var f, s := FrameOf(meta), sources[FrameOf(meta).sourceId];
      f.cameraId == s.cameraId && (f.incarnation != s.incarnation || f.calibrationId != s.calibrationId)
    ensures Admit(sources, Some(meta)) == Admission(Accepted, true, None)
    ensures Next(sources, Some(meta))[FrameOf(meta).sourceId] == Established(FrameOf(meta))
  {
    hide IsNewer;
  }
}
