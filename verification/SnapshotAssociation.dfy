/** Which aircraft snapshot a video frame shows: clients/web/snapshot-association.js.
    The diagnostic counters are not part of this model. */
module SnapshotAssociation {
  import opened Wrappers
  import opened Bytes
  import opened WireBounds
  import opened VideoIdentity

  // ---- identities -----------------------------------------------------------

  /** A snapshot identity as handed in, before any check. */
  datatype RawIdentity = RawIdentity(sourceId: Js, sourceIncarnation: Js, sourceEpoch: Js, sequence: Js,
                                     acquiredAtNanos: Js, clock: Js)

  datatype Identity = Identity(sourceId: u64, incarnation: hex32, epoch: u32, sequence: u32, acquiredAt: u64,
                               clock: Clock)

  datatype Stream = Stream(sourceId: u64, incarnation: hex32, epoch: u32)

  function IdentityFields(r: RawIdentity): seq<FieldSpec> {
    [FieldSpec("sourceId", U64, r.sourceId),
     FieldSpec("sourceIncarnation", Incarnation, r.sourceIncarnation),
     FieldSpec("sourceEpoch", U32, r.sourceEpoch),
     FieldSpec("sequence", U32, r.sequence),
     FieldSpec("acquiredAtNanos", U64, r.acquiredAtNanos)]
  }

  function SnapshotIdentityFault(raw: Option<RawIdentity>): Option<Fault> {
    match raw
    case None => Some(Fault("identity", Malformed))
    case Some(r) =>
      var fault := FirstFaultOf(IdentityFields(r));
      if fault.Some? then fault
      else if r.clock != CLOCK_VEHICLE_BOOT && r.clock != CLOCK_SIMULATION then Some(Fault("clock", Malformed))
      else None
  }

  function RawOf(id: Identity): RawIdentity {
    RawIdentity(Big(id.sourceId), Text(id.incarnation), Num(id.epoch as real), Num(id.sequence as real),
                Big(id.acquiredAt), ClockValue(id.clock))
  }

  /** The identity behind a checked one. */
  function IdentityOf(r: RawIdentity): (id: Identity)
    requires SnapshotIdentityFault(Some(r)).None?
    ensures r == RawOf(id) && (id.clock == VehicleBoot || id.clock == Simulation)
  {
    IdentityAccepted(r);
    hide FirstFaultOf;
    Identity(r.sourceId.big, r.sourceIncarnation.text, r.sourceEpoch.value.Floor, r.sequence.value.Floor,
             r.acquiredAtNanos.big, ClockOf(r.clock))
  }

  lemma IdentityAccepted(r: RawIdentity)
    requires FirstFaultOf(IdentityFields(r)).None?
    ensures IsU64(r.sourceId) && IsIncarnation(r.sourceIncarnation) && IsUintInRange(r.sourceEpoch, U32_MAX)
            && IsUintInRange(r.sequence, U32_MAX) && IsU64(r.acquiredAtNanos)
  {
    var s := IdentityFields(r);
    FirstFaultIsFirst(s);
    hide FirstFaultOf;
    assert Accepts(s[0].kind, s[0].value) && Accepts(s[1].kind, s[1].value) && Accepts(s[2].kind, s[2].value)
      && Accepts(s[3].kind, s[3].value) && Accepts(s[4].kind, s[4].value);
  }

  function StreamOf(id: Identity): Stream {
    Stream(id.sourceId, id.incarnation, id.epoch)
  }

  // ---- the history: specification -------------------------------------------

  datatype Op = Observe(raw: Option<RawIdentity>) | Reset

  /** Every valid observation since the last reset, without a repeat of the one
      just before it. */
  function Log(run: seq<Op>): seq<Identity> {
    if run == [] then []
    else
      var before := Log(run[..|run| - 1]);
      match run[|run| - 1]
      case Reset => []
      case Observe(raw) =>
        if SnapshotIdentityFault(raw).Some? then before
        else if before != [] && before[|before| - 1] == IdentityOf(raw.value) then before
        else before + [IdentityOf(raw.value)]
  }

  datatype History = History(entries: seq<Identity>, currentStream: Option<Stream>)

  function Step(h: History, op: Op, capacity: nat): History
  {
    match op
    case Reset => History([], None)
    case Observe(raw) =>
      if SnapshotIdentityFault(raw).Some? then h
      else
        var id := IdentityOf(raw.value);
        if h.entries != [] && h.entries[|h.entries| - 1] == id then h
        else History(Newest(h.entries + [id], capacity), Some(StreamOf(id)))
  }

  /** Drops the oldest entry of a list one too long. */
  function Newest(entries: seq<Identity>, capacity: nat): seq<Identity> {
    if |entries| > capacity then entries[1..] else entries
  }

  function After(run: seq<Op>, capacity: nat): History {
    if run == [] then History([], None) else Step(After(run[..|run| - 1], capacity), run[|run| - 1], capacity)
  }

  function Last(log: seq<Identity>, n: nat): seq<Identity> {
    if |log| <= n then log else log[|log| - n..]
  }

  /** Over every run the bounded ring is the newest part of the unbounded log,
      and the current stream is that of the newest entry. */
  lemma {:induction false} RingIsTheEndOfTheLog(run: seq<Op>, capacity: nat)
    requires capacity > 0
    ensures After(run, capacity).entries == Last(Log(run), capacity)
    ensures After(run, capacity).currentStream ==
      if Log(run) == [] then None else Some(StreamOf(Log(run)[|Log(run)| - 1]))
  {
    hide IdentityOf, StreamOf, Last, Newest;
    if run == [] {
      LastOfShort([], capacity);
    } else {
      var front := run[..|run| - 1];
      RingIsTheEndOfTheLog(front, capacity);
      LastKeepsTheEnd(Log(front), capacity);
      if run[|run| - 1].Observe? && SnapshotIdentityFault(run[|run| - 1].raw).None? {
        LastGrows(Log(front), IdentityOf(run[|run| - 1].raw.value), capacity);
      } else {
        LastOfShort([], capacity);
      }
    }
  }

  lemma LastOfShort(log: seq<Identity>, n: nat)
    requires |log| <= n
    ensures Last(log, n) == log
  {
  }

  lemma LastKeepsTheEnd(log: seq<Identity>, n: nat)
    requires n > 0
    ensures Last(log, n) == [] <==> log == []
    ensures log != [] ==> Last(log, n)[|Last(log, n)| - 1] == log[|log| - 1]
  {
  }

  lemma LastGrows(log: seq<Identity>, id: Identity, n: nat)
    requires n > 0
    ensures Newest(Last(log, n) + [id], n) == Last(log + [id], n)
  {
  }

  // ---- association: specification -------------------------------------------

  function AbsDiff(a: int, b: int): nat {
    if a >= b then a - b else b - a
  }

  function OnClock(entries: seq<Identity>, clock: Clock): seq<Identity> {
    if entries == [] then []
    else (if entries[0].clock == clock then [entries[0]] else []) + OnClock(entries[1..], clock)
  }

  /** What the scan has chosen after the first candidates. */
  function Nearest(candidates: seq<Identity>, mapped: u64): Identity
    requires candidates != []
  {
    var last := candidates[|candidates| - 1];
    if |candidates| == 1 then last
    else
      var best := Nearest(candidates[..|candidates| - 1], mapped);
      if AbsDiff(last.acquiredAt, mapped) < AbsDiff(best.acquiredAt, mapped) then last else best
  }

  datatype Reason =
    | ReadyVerdict
    | NoMapping
    | MapOverflow
    | EmptyHistory
    | OtherClock
    | StreamDiscontinuity
    | TotalErrorExceedsBudget
    | MalformedInput(fault: Fault)
    | GateClosed(gate: GateReason)
    | NotAdmitted

  datatype Verdict = Verdict(ready: bool, snapshot: Option<Identity>, mapped: Option<u64>, totalError: Option<int>,
                             reason: Reason)

  function ClosedVerdict(reason: Reason): Verdict {
    Verdict(false, None, None, None, reason)
  }

  function Associate(h: History, meta: Option<Meta>, options: Options): Verdict {
    if MetaFault(meta).Some? then ClosedVerdict(MalformedInput(MetaFault(meta).value))
    else AssociateFrame(h, meta.value, FrameOf(meta.value), options)
  }

  function AssociateFrame(h: History, meta: Meta, f: Frame, options: Options): Verdict {
    if !f.mappingAvailable then ClosedVerdict(NoMapping)
    else
      match MapCaptureTime(f.captureTime, f.mappingOffset)
      case None => ClosedVerdict(MapOverflow)
      case Some(mapped) =>
        var candidates := OnClock(h.entries, f.mappingTarget);
        if h.entries == [] then ClosedVerdict(EmptyHistory)
        else if candidates == [] then ClosedVerdict(OtherClock)
        else
          var nearest := Nearest(candidates, mapped);
          if h.currentStream != Some(StreamOf(nearest)) then ClosedVerdict(StreamDiscontinuity)
          else
            var totalError := f.clockErrorBound + AbsDiff(nearest.acquiredAt, mapped);
            if totalError > options.maxClockErrorNanos then
              Verdict(false, Some(nearest), Some(mapped), Some(totalError), TotalErrorExceedsBudget)
            else
              var gate := ConformalGate(Some(meta), Some(nearest.clock), options);
              if !gate.conformalReady then
                Verdict(false, Some(nearest), Some(mapped), Some(totalError), GateClosed(gate.reason))
              else Verdict(true, Some(nearest), Some(mapped), Some(totalError), ReadyVerdict)
  }

  // ---- the associator object ------------------------------------------------

  class SnapshotAssociator {
    const capacity: nat
    var entries: seq<Identity>
    var currentStream: Option<Stream>

    function Value(): History
      reads this
    {
      History(entries, currentStream)
    }

    /** The source refuses a capacity below 1. */
    constructor (capacity: nat)
      requires capacity > 0
      ensures Value() == History([], None) && this.capacity == capacity
    {
      this.capacity, entries, currentStream := capacity, [], None;
    }

    method ObserveIdentity(raw: Option<RawIdentity>) returns (recorded: bool)
      modifies this
      ensures Value() == Step(old(Value()), Observe(raw), capacity)
      ensures recorded <==>
        && SnapshotIdentityFault(raw).None?
        && (old(entries) == [] || old(entries[|entries| - 1]) != IdentityOf(raw.value))
    {
      hide FirstFaultOf;
      if SnapshotIdentityFault(raw).Some? {
        return false;
      }
      var entry := IdentityOf(raw.value);
      if entries != [] && entries[|entries| - 1] == entry {
        return false;
      }
      entries := entries + [entry];
      currentStream := Some(StreamOf(entry));
      if |entries| > capacity {
        entries := entries[1..];
      }
      return true;
    }

    method ResetHistory()
      modifies this
      ensures Value() == Step(old(Value()), Reset, capacity)
    {
      entries, currentStream := [], None;
    }

    method AssociateMeta(meta: Option<Meta>, options: Options) returns (verdict: Verdict)
      ensures verdict == Associate(Value(), meta, options)
    {
      hide FirstFaultOf, ConformalGate, StreamOf;
      var fault := MetaFault(meta);
      if fault.Some? {
        return ClosedVerdict(MalformedInput(fault.value));
      }
      var f := FrameOf(meta.value);
      if !f.mappingAvailable {
        return ClosedVerdict(NoMapping);
      }
      var mapping := MapCaptureTime(f.captureTime, f.mappingOffset);
      if mapping.None? {
        return ClosedVerdict(MapOverflow);
      }
      var mapped := mapping.value;
      if entries == [] {
        return ClosedVerdict(EmptyHistory);
      }
      var candidates := OnClock(entries, f.mappingTarget);
      if candidates == [] {
        return ClosedVerdict(OtherClock);
      }
      var nearest := candidates[0];
      var bestDelta := AbsDiff(nearest.acquiredAt, mapped);
      assert candidates[..1] == [nearest];
      for i := 1 to |candidates|
        invariant candidates[..i] != [] && nearest == Nearest(candidates[..i], mapped)
        invariant bestDelta == AbsDiff(nearest.acquiredAt, mapped)
      {
        assert candidates[..i + 1][..i] == candidates[..i];
        var delta := AbsDiff(candidates[i].acquiredAt, mapped);
        if delta < bestDelta {
          bestDelta := delta;
          nearest := candidates[i];
        }
      }
      assert candidates[..|candidates|] == candidates;
      if currentStream != Some(StreamOf(nearest)) {
        return ClosedVerdict(StreamDiscontinuity);
      }
      var totalError := f.clockErrorBound + bestDelta;
      if totalError > options.maxClockErrorNanos {
        return Verdict(false, Some(nearest), Some(mapped), Some(totalError), TotalErrorExceedsBudget);
      }
      var gate := ConformalGate(meta, Some(nearest.clock), options);
      if !gate.conformalReady {
        return Verdict(false, Some(nearest), Some(mapped), Some(totalError), GateClosed(gate.reason));
      }
      return Verdict(true, Some(nearest), Some(mapped), Some(totalError), ReadyVerdict);
    }
  }

  /** Association runs only on a frame the tracker admitted. */
  method AssociateIfAccepted(tracker: VideoIdentityTracker, associator: SnapshotAssociator, meta: Option<Meta>,
                             options: Options)
    returns (admission: Admission, verdict: Verdict)
    requires tracker as object != associator as object
    modifies tracker
    ensures admission == Admit(old(tracker.sources), meta) && tracker.sources == Next(old(tracker.sources), meta)
    ensures verdict ==
      if admission.reason == Accepted then Associate(associator.Value(), meta, options) else ClosedVerdict(NotAdmitted)
  {
    admission := tracker.AdmitFrame(meta);
    if admission.reason != Accepted {
      return admission, ClosedVerdict(NotAdmitted);
    }
    verdict := associator.AssociateMeta(meta, options);
  }

  // ---- what a verdict means -------------------------------------------------

  /** `i` is the first of the entries on the clock that are nearest. */
  ghost predicate FirstNearest(entries: seq<Identity>, clock: Clock, mapped: u64, i: nat) {
    && i < |entries| && entries[i].clock == clock
    && (forall j :: 0 <= j < |entries| && entries[j].clock == clock ==>
          AbsDiff(entries[i].acquiredAt, mapped) <= AbsDiff(entries[j].acquiredAt, mapped))
    && (forall j :: 0 <= j < i && entries[j].clock == clock ==>
          AbsDiff(entries[i].acquiredAt, mapped) < AbsDiff(entries[j].acquiredAt, mapped))
  }

  lemma {:induction false} OnClockSplits(a: seq<Identity>, b: seq<Identity>, clock: Clock)
    ensures OnClock(a + b, clock) == OnClock(a, clock) + OnClock(b, clock)
  {
    Cons(a, b);
    if a != [] {
      OnClockSplits(a[1..], b, clock);
      Assoc(if a[0].clock == clock then [a[0]] else [], OnClock(a[1..], clock), OnClock(b, clock));
    }
  }

  /** The scan over the filtered entries finds the first nearest one. */
  lemma {:induction false} NearestIsFirstNearest(entries: seq<Identity>, clock: Clock, mapped: u64) returns (i: nat)
    requires OnClock(entries, clock) != []
    ensures FirstNearest(entries, clock, mapped, i) && entries[i] == Nearest(OnClock(entries, clock), mapped)
    decreases |entries|
  {
    var n := |entries| - 1;
    var front, last := entries[..n], entries[n];
    assert entries == front + [last];
    OnClockSplits(front, [last], clock);
    assert OnClock([last], clock) == if last.clock == clock then [last] else [];
    var candidates := OnClock(entries, clock);
    if OnClock(front, clock) == [] {
      NoneOnClock(front, clock);
      i := n;
    } else {
      i := NearestIsFirstNearest(front, clock, mapped);
      if last.clock == clock {
        assert candidates[..|candidates| - 1] == OnClock(front, clock);
        if AbsDiff(last.acquiredAt, mapped) < AbsDiff(entries[i].acquiredAt, mapped) {
          i := n;
        }
      } else {
        assert candidates == OnClock(front, clock);
      }
    }
  }

  lemma {:induction false} NoneOnClock(entries: seq<Identity>, clock: Clock)
    ensures OnClock(entries, clock) == [] <==> forall j :: 0 <= j < |entries| ==> entries[j].clock != clock
  {
    if entries != [] {
      NoneOnClock(entries[1..], clock);
      assert forall j :: 0 < j < |entries| ==> entries[j] == entries[1..][j - 1];
    }
  }

  /** What a frame must find in the log for its association to be ready. */
  ghost predicate Anchors(log: seq<Identity>, capacity: nat, f: Frame, options: Options, i: nat) {
    var retained := Last(log, capacity);
    && f.mappingAvailable
    && 0 <= f.captureTime + f.mappingOffset <= U64_MAX
    && FirstNearest(retained, f.mappingTarget, f.captureTime + f.mappingOffset, i)
    && |retained| <= |log|
    && StreamOf(retained[i]) == StreamOf(log[|log| - 1])
    && f.clockErrorBound + AbsDiff(retained[i].acquiredAt, f.captureTime + f.mappingOffset)
       <= options.maxClockErrorNanos
    && f.calibrationId != 0 && f.calibrationId in options.recognizedCalibrations
  }

  lemma OneFirstNearest(entries: seq<Identity>, clock: Clock, mapped: u64, i: nat, j: nat)
    requires FirstNearest(entries, clock, mapped, i) && FirstNearest(entries, clock, mapped, j)
    ensures i == j
  {
  }

  function ReadyWith(f: Frame, nearest: Identity): Verdict
    requires 0 <= f.captureTime + f.mappingOffset <= U64_MAX
  {
    var mapped := f.captureTime + f.mappingOffset;
    Verdict(true, Some(nearest), Some(mapped), Some(f.clockErrorBound + AbsDiff(nearest.acquiredAt, mapped)),
            ReadyVerdict)
  }

  /** The frame has an anchor in the log, and the verdict names it. */
  ghost predicate NamesItsAnchor(v: Verdict, log: seq<Identity>, capacity: nat, f: Frame, options: Options) {
    exists i: nat :: Anchors(log, capacity, f, options, i) && v == ReadyWith(f, Last(log, capacity)[i])
  }

  /** Over every run of observations and resets, a verdict is ready exactly when
      the metadata is sound and, among the last `capacity` logged snapshots on
      the mapping's clock, the first nearest to the mapped capture time is of
      the newest snapshot's stream, the total error is within budget, and the
      calibration is published and recognized. The verdict then names that
      snapshot, that time and that error. */
  lemma ReadyExactlyWhenAnchored(run: seq<Op>, capacity: nat, meta: Meta, options: Options)
    requires capacity > 0
    ensures var v := Associate(After(run, capacity), Some(meta), options);
      && (v.ready <==>
            MetaFault(Some(meta)).None? && exists i: nat :: Anchors(Log(run), capacity, FrameOf(meta), options, i))
      && (v.ready ==> NamesItsAnchor(v, Log(run), capacity, FrameOf(meta), options))
  {
    RingIsTheEndOfTheLog(run, capacity);
    var v := Associate(After(run, capacity), Some(meta), options);
    if MetaFault(Some(meta)).None? {
      AnchoredFrame(After(run, capacity), Log(run), capacity, meta, options);
    }
    hide MetaFault, AssociateFrame, Anchors, Last, NamesItsAnchor, After, Log;
  }

  lemma AnchoredFrame(h: History, log: seq<Identity>, capacity: nat, meta: Meta, options: Options)
    requires capacity > 0 && MetaFault(Some(meta)).None?
    requires h.entries == Last(log, capacity)
    requires h.currentStream == if log == [] then None else Some(StreamOf(log[|log| - 1]))
    ensures var f := FrameOf(meta);
      var v := AssociateFrame(h, meta, f, options);
      && (v.ready <==> exists i: nat :: Anchors(log, capacity, f, options, i))
      && (v.ready ==> NamesItsAnchor(v, log, capacity, f, options))
      && (v.reason.GateClosed? ==> v.reason.gate == CalibrationUnavailable)
  {
    hide MetaFault;
    var f := FrameOf(meta);
    var mapping := MapCaptureTime(f.captureTime, f.mappingOffset);
    if !f.mappingAvailable || mapping.None? || OnClock(h.entries, f.mappingTarget) == [] {
      NoneOnClock(h.entries, f.mappingTarget);
      hide OnClock, Nearest, Last, StreamOf, ConformalGate;
    } else {
      var k := NearestIsFirstNearest(h.entries, f.mappingTarget, mapping.value);
      AnchoredAt(h, log, capacity, meta, options, k);
      forall i: nat | Anchors(log, capacity, f, options, i)
        ensures i == k
      {
        OneFirstNearest(h.entries, f.mappingTarget, mapping.value, i, k);
        hide *;
      }
      hide *;
    }
  }

  /** The verdict once the scan has chosen entry `k`. */
  lemma AnchoredAt(h: History, log: seq<Identity>, capacity: nat, meta: Meta, options: Options, k: nat)
    requires capacity > 0 && MetaFault(Some(meta)).None?
    requires h.entries == Last(log, capacity)
    requires h.currentStream == if log == [] then None else Some(StreamOf(log[|log| - 1]))
    requires FrameOf(meta).mappingAvailable
      && MapCaptureTime(FrameOf(meta).captureTime, FrameOf(meta).mappingOffset).Some?
    requires OnClock(h.entries, FrameOf(meta).mappingTarget) != []
    requires FirstNearest(h.entries, FrameOf(meta).mappingTarget,
                          FrameOf(meta).captureTime + FrameOf(meta).mappingOffset, k)
    requires h.entries[k] == Nearest(OnClock(h.entries, FrameOf(meta).mappingTarget),
                                     FrameOf(meta).captureTime + FrameOf(meta).mappingOffset)
    ensures var f := FrameOf(meta);
      var v := AssociateFrame(h, meta, f, options);
      && (v.ready <==> Anchors(log, capacity, f, options, k))
      && (v.ready ==> NamesItsAnchor(v, log, capacity, f, options))
      && (v.reason.GateClosed? ==> v.reason.gate == CalibrationUnavailable)
  {
    hide MetaFault, FrameOf, MetaOf, Lawful, AbsDiff, OnClock, Nearest, StreamOf;
    assert k < |h.entries| && h.entries[k].clock == FrameOf(meta).mappingTarget;
    assert k < |Last(log, capacity)|;
    assert |Last(log, capacity)| <= |log| && log != [];
    hide FirstNearest, Last;
    var f := FrameOf(meta);
    var v := AssociateFrame(h, meta, f, options);
    if v.ready {
      assert Anchors(log, capacity, f, options, k) && v == ReadyWith(f, Last(log, capacity)[k]);
    }
  }

  /** The last gate refuses nothing but the calibration: everything else it
      checks was decided before. */
  lemma GateRefusesOnlyCalibration(run: seq<Op>, capacity: nat, meta: Option<Meta>, options: Options)
    requires capacity > 0
    ensures var v := Associate(After(run, capacity), meta, options);
      v.reason.GateClosed? ==> v.reason.gate == CalibrationUnavailable
  {
    RingIsTheEndOfTheLog(run, capacity);
    hide MetaFault;
    if MetaFault(meta).None? {
      AnchoredFrame(After(run, capacity), Log(run), capacity, meta.value, options);
    }
    hide AssociateFrame, Last;
  }

  /** A frame stamped on the host's own clock is never associated: no snapshot
      is on it. */
  lemma HostClockNeverAssociates(run: seq<Op>, capacity: nat, meta: Meta, options: Options)
    requires capacity > 0 && MetaFault(Some(meta)).None? && FrameOf(meta).mappingTarget == HostMonotonic
    ensures Associate(After(run, capacity), Some(meta), options).snapshot == None
  {
    RingIsTheEndOfTheLog(run, capacity);
    LogIsOnVehicleClocks(run);
    hide Log, After, MetaFault, FrameOf, OnClock;
    NoneOnClock(After(run, capacity).entries, HostMonotonic);
    NothingOnTheClock(After(run, capacity), meta, options);
  }

  lemma NothingOnTheClock(h: History, meta: Meta, options: Options)
    requires MetaFault(Some(meta)).None? && OnClock(h.entries, FrameOf(meta).mappingTarget) == []
    ensures Associate(h, Some(meta), options).snapshot == None
  {
    hide MetaFault, FrameOf, OnClock, ConformalGate;
  }

  lemma {:induction false} LogIsOnVehicleClocks(run: seq<Op>)
    ensures forall i :: 0 <= i < |Log(run)| ==> Log(run)[i].clock == VehicleBoot || Log(run)[i].clock == Simulation
  {
    if run != [] {
      LogIsOnVehicleClocks(run[..|run| - 1]);
      hide SnapshotIdentityFault;
    }
  }
}
