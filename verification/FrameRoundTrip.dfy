/** Decoding an encoded control frame recovers it, and exactly what is lost. */
module FrameRoundTrip {
  import opened Wrappers
  import opened Bytes
  import opened Fields
  import opened ControlFrame
  import opened Numbers

  /** A float as it returns: the falsy ones were omitted and read as zero. */
  function Canon(v: Float): Word {
    if Falsy(v) then ZERO_WORD else v.word
  }

  function ReadAxes(axes: seq<Axis<nat, Float>>): (r: seq<Axis<Number, Word>>)
    ensures |r| == |axes|
    ensures forall i :: 0 <= i < |r| ==> r[i] == Axis(ToNumber(axes[i].id), Canon(axes[i].value))
  {
    if axes == [] then [] else [Axis(ToNumber(axes[0].id), Canon(axes[0].value))] + ReadAxes(axes[1..])
  }

  predicate Vanishes(e: Edge<nat>) { e.button == 0 && e.edge == 0 }

  function ReadEdge(e: Edge<nat>): Edge<Number> {
    Edge(ToNumber(e.button), ToNumber(e.edge))
  }

  /** The edges as they return, without those whose two scalars are both
      omitted. */
  function ReadEdges(edges: seq<Edge<nat>>): (r: seq<Edge<Number>>)
    ensures |r| <= |edges|
    ensures |r| == |edges| <==> forall i :: 0 <= i < |edges| ==> !Vanishes(edges[i])
    ensures |r| == |edges| ==> forall i :: 0 <= i < |edges| ==> r[i] == ReadEdge(edges[i])
  {
    if edges == [] then []
    else if Vanishes(edges[0]) then ReadEdges(edges[1..])
    else [ReadEdge(edges[0])] + ReadEdges(edges[1..])
  }

  function ReadAction(a: Action<nat>): Action<Number> {
    Action(ToNumber(a.action), ToNumber(a.modeTarget), ToNumber(a.actionId), ToNumber(a.feelTarget))
  }

  function ReadActions(actions: seq<Action<nat>>): (r: seq<Action<Number>>)
    ensures |r| == |actions|
    ensures forall i :: 0 <= i < |r| ==> r[i] == ReadAction(actions[i])
  {
    if actions == [] then [] else [ReadAction(actions[0])] + ReadActions(actions[1..])
  }

  function ReadVelocity(v: Velocity<Float>): DecodedVelocity {
    DecodedVelocity(Finite(REFERENCE_FRAME_BODY_FRD), Velocity(Canon(v.vx), Canon(v.vy), Canon(v.vz), Canon(v.yawRate)))
  }

  function ReadGimbal(g: GimbalRate<Float>): GimbalRate<Word> {
    GimbalRate(Canon(g.pitchRate), Canon(g.yawRate))
  }

  /** What comes back of a frame. */
  function Expected(f: Frame): Decoded {
    Decoded(f.scope, ToNumber(f.profileRevision), ToNumber(f.activationRevision), ReadAxes(f.axes), ReadEdges(f.edges),
            MapOption(f.velocity, ReadVelocity), MapOption(f.gimbalRate, ReadGimbal), ReadActions(f.actions))
  }

  // ---- what a field list shows under each number ----------------------------

  function Seen(fs: seq<Field>, n: nat): seq<Value> {
    ValuesOf(EntriesOf(fs), n)
  }

  lemma SeenAppend(a: seq<Field>, b: seq<Field>)
    ensures forall n: nat :: Seen(a + b, n) == Seen(a, n) + Seen(b, n)
  {
    EntriesOfAppend(a, b);
    forall n: nat {
      ValuesOfAppend(EntriesOf(a), EntriesOf(b), n);
    }
  }

  lemma SeenAppend5(a: seq<Field>, b: seq<Field>, c: seq<Field>, d: seq<Field>, e: seq<Field>)
    ensures forall n: nat ::
      Seen(a + b + c + d + e, n) == Seen(a, n) + Seen(b, n) + Seen(c, n) + Seen(d, n) + Seen(e, n)
  {
    hide Seen;
    SeenAppend(a, b);
    SeenAppend(a + b, c);
    SeenAppend(a + b + c, d);
    SeenAppend(a + b + c + d, e);
  }

  lemma SeenOne(f: Field)
    ensures forall n: nat :: Seen([f], n) == if n == f.number then [EntryOf(f).value] else []
  {
    assert EntriesOf([f]) == [EntryOf(f)];
    forall n: nat
      ensures Seen([f], n) == if n == f.number then [EntryOf(f).value] else []
    {
      assert ValuesOf([EntryOf(f)], n) == (if n == f.number then [EntryOf(f).value] else []) + ValuesOf([], n);
    }
  }

  function VarintSeen(v: nat): seq<Value> { if v == 0 then [] else [Integer(v)] }

  function FloatSeen(f: Float): seq<Value> { if Falsy(f) then [] else [Blob(f.word)] }

  function BytesSeen(p: seq<byte>): seq<Value> { if p == [] then [] else [Blob(p)] }

  function MessageSeen(fs: Option<seq<Field>>): seq<Value> {
    match fs case None => [] case Some(inner) => [Blob(Serialize(inner))]
  }

  lemma SeenOptVarint(k: nat, v: nat)
    ensures forall n: nat :: Seen(OptVarint(k, v), n) == if n == k then VarintSeen(v) else []
  {
    if v != 0 {
      SeenOne(VarintField(k, v));
    }
  }

  lemma SeenOptFloat(k: nat, f: Float)
    ensures forall n: nat :: Seen(OptFloat(k, f), n) == if n == k then FloatSeen(f) else []
  {
    if !Falsy(f) {
      SeenOne(FloatField(k, f.word));
    }
  }

  lemma SeenOptBytes(k: nat, p: seq<byte>)
    ensures forall n: nat :: Seen(OptBytes(k, p), n) == if n == k then BytesSeen(p) else []
  {
    if p != [] {
      SeenOne(LenField(k, p));
    }
  }

  lemma SeenOptMessage(k: nat, fs: Option<seq<Field>>)
    ensures forall n: nat :: Seen(OptMessage(k, fs), n) == if n == k then MessageSeen(fs) else []
  {
    if fs.Some? {
      SeenOne(LenField(k, Serialize(fs.value)));
    }
  }

  /** The parsed map of a serialized list shows the list's values. */
  lemma ParsedShows(fs: seq<Field>)
    requires Numbered(fs) && |Serialize(fs)| <= MAX_SAFE
    ensures Parse(Serialize(fs)).Success?
    ensures forall n: nat :: Get(Parse(Serialize(fs)).value, n) == Seen(fs, n)
  {
    hide Parse, Serialize;
    ParseSerialized(fs);
    var fields := Parse(Serialize(fs)).value;
    assert forall n: nat :: Get(fields, n) == ValuesOf(EntriesOf(fs), n);
  }

  // ---- nested messages are no longer than what holds them -------------------

  lemma {:induction false} PayloadIsShorter(fs: seq<Field>, i: nat)
    requires i < |fs| && fs[i].LenField?
    ensures |fs[i].payload| <= |Serialize(fs)|
    decreases i
  {
    hide EncodeField;
    if i > 0 {
      PayloadIsShorter(fs[1..], i - 1);
    } else {
      EncodedPayload(fs[0]);
    }
  }

  lemma EncodedPayload(f: Field)
    requires f.LenField?
    ensures |f.payload| <= |EncodeField(f)|
  {
  }

  lemma MessageIsShorter(before: seq<Field>, k: nat, fs: Option<seq<Field>>, after: seq<Field>)
    ensures fs.Some? ==> |Serialize(fs.value)| <= |Serialize(before + OptMessage(k, fs) + after)|
  {
    if fs.Some? {
      PayloadIsShorter(before + OptMessage(k, fs) + after, |before|);
    }
  }

  // ---- reading one message --------------------------------------------------

  lemma ReadsVarint(fields: FieldMap, n: nat, v: nat)
    requires Get(fields, n) == VarintSeen(v)
    ensures FirstBigVarint(fields, n) == Success(v)
    ensures FirstVarint(fields, n) == Success(ToNumber(v))
  {
    hide ToNumber;
  }

  lemma ReadsFloat(fields: FieldMap, n: nat, f: Float)
    requires Get(fields, n) == FloatSeen(f)
    ensures FirstFloat(fields, n) == Success(Canon(f))
  {
    assert f.word[..4] == f.word;
  }

  lemma ReadsMessage(fields: FieldMap, n: nat, fs: Option<seq<Field>>)
    requires Get(fields, n) == MessageSeen(fs)
    ensures FirstBytes(fields, n) == Success(MapOption(fs, Serialize))
  {
  }

  lemma AxisReturns(a: Axis<nat, Float>)
    requires |Serialize(AxisFields(a))| <= MAX_SAFE
    ensures DecodeAxis(Serialize(AxisFields(a))) == Success(Axis(ToNumber(a.id), Canon(a.value)))
  {
    hide Parse, Serialize, Seen, FirstVarint, FirstFloat, ToNumber;
    ParsedShows(AxisFields(a));
    SeenAppend(OptVarint(1, a.id), OptFloat(2, a.value));
    SeenOptVarint(1, a.id);
    SeenOptFloat(2, a.value);
    var fields := Parse(Serialize(AxisFields(a))).value;
    ReadsVarint(fields, 1, a.id);
    ReadsFloat(fields, 2, a.value);
  }

  lemma EdgeReturns(e: Edge<nat>)
    requires |Serialize(EdgeFields(e))| <= MAX_SAFE
    ensures DecodeEdge(Serialize(EdgeFields(e))) == Success(ReadEdge(e))
  {
    hide Parse, Serialize, Seen, FirstVarint, ToNumber;
    ParsedShows(EdgeFields(e));
    SeenAppend(OptVarint(1, e.button), OptVarint(2, e.edge));
    SeenOptVarint(1, e.button);
    SeenOptVarint(2, e.edge);
    var fields := Parse(Serialize(EdgeFields(e))).value;
    ReadsVarint(fields, 1, e.button);
    ReadsVarint(fields, 2, e.edge);
  }

  lemma EdgeVanishes(e: Edge<nat>)
    ensures Serialize(EdgeFields(e)) == [] <==> Vanishes(e)
  {
    if !Vanishes(e) {
      EncodedFieldIsNonempty(EdgeFields(e)[0]);
    }
  }

  lemma ActionReturns(a: Action<nat>)
    requires |Serialize(ActionFields(a))| <= MAX_SAFE
    ensures DecodeAction(Serialize(ActionFields(a))) == Success(ReadAction(a))
  {
    hide Parse, Serialize, Seen, FirstVarint, ToNumber, ActionFields, VarintSeen;
    ActionIsNumbered(a);
    ParsedShows(ActionFields(a));
    ActionSeen(a);
    hide Numbered;
    var fields := Parse(Serialize(ActionFields(a))).value;
    ReadsVarint(fields, 1, a.action);
    ReadsVarint(fields, 2, a.modeTarget);
    ReadsVarint(fields, 3, a.actionId);
    ReadsVarint(fields, 4, a.feelTarget);
  }

  lemma ActionIsNumbered(a: Action<nat>)
    ensures Numbered(ActionFields(a))
  {
  }

  lemma ActionSeen(a: Action<nat>)
    ensures Seen(ActionFields(a), 1) == VarintSeen(a.action) && Seen(ActionFields(a), 2) == VarintSeen(a.modeTarget)
    ensures Seen(ActionFields(a), 3) == VarintSeen(a.actionId) && Seen(ActionFields(a), 4) == VarintSeen(a.feelTarget)
  {
    hide Seen, OptVarint, VarintSeen;
    var p, q, r, s := OptVarint(1, a.action), OptVarint(2, a.modeTarget), OptVarint(3, a.actionId),
      OptVarint(4, a.feelTarget);
    SeenAppend(p, q);
    SeenAppend(p + q, r);
    SeenAppend(p + q + r, s);
    SeenOptVarint(1, a.action);
    SeenOptVarint(2, a.modeTarget);
    SeenOptVarint(3, a.actionId);
    SeenOptVarint(4, a.feelTarget);
  }

  lemma VelocityReturns(v: Velocity<Float>)
    requires |Serialize(VelocityFields(v))| <= MAX_SAFE
    ensures DecodeVelocity(Serialize(VelocityFields(v))) == Success(ReadVelocity(v))
  {
    hide Parse, Serialize, Seen, FirstVarint, FirstFloat, VelocityFields, Canon, FloatSeen, VarintSeen;
    SmallSurvives(REFERENCE_FRAME_BODY_FRD);
    hide ToNumber, Exact;
    VelocityIsNumbered(v);
    ParsedShows(VelocityFields(v));
    VelocitySeen(v);
    hide Numbered;
    var fields := Parse(Serialize(VelocityFields(v))).value;
    ReadsVarint(fields, 1, REFERENCE_FRAME_BODY_FRD);
    ReadsFloat(fields, 2, v.vx);
    ReadsFloat(fields, 3, v.vy);
    ReadsFloat(fields, 4, v.vz);
    ReadsFloat(fields, 5, v.yawRate);
  }

  lemma VelocitySeen(v: Velocity<Float>)
    ensures Seen(VelocityFields(v), 1) == VarintSeen(REFERENCE_FRAME_BODY_FRD)
    ensures Seen(VelocityFields(v), 2) == FloatSeen(v.vx) && Seen(VelocityFields(v), 3) == FloatSeen(v.vy)
    ensures Seen(VelocityFields(v), 4) == FloatSeen(v.vz) && Seen(VelocityFields(v), 5) == FloatSeen(v.yawRate)
  {
    hide Seen, OptVarint, OptFloat, VarintSeen, FloatSeen;
    SeenAppend5(OptVarint(1, REFERENCE_FRAME_BODY_FRD), OptFloat(2, v.vx), OptFloat(3, v.vy), OptFloat(4, v.vz),
                OptFloat(5, v.yawRate));
    SeenOptVarint(1, REFERENCE_FRAME_BODY_FRD);
    SeenOptFloat(2, v.vx);
    SeenOptFloat(3, v.vy);
    SeenOptFloat(4, v.vz);
    SeenOptFloat(5, v.yawRate);
  }

  lemma VelocityIsNumbered(v: Velocity<Float>)
    ensures Numbered(VelocityFields(v))
  {
  }

  lemma GimbalReturns(g: GimbalRate<Float>)
    requires |Serialize(GimbalFields(g))| <= MAX_SAFE
    ensures DecodeGimbal(Serialize(GimbalFields(g))) == Success(ReadGimbal(g))
  {
    hide Parse, Serialize, Seen, FirstFloat;
    ParsedShows(GimbalFields(g));
    SeenAppend(OptFloat(1, g.pitchRate), OptFloat(2, g.yawRate));
    SeenOptFloat(1, g.pitchRate);
    SeenOptFloat(2, g.yawRate);
    var fields := Parse(Serialize(GimbalFields(g))).value;
    ReadsFloat(fields, 1, g.pitchRate);
    ReadsFloat(fields, 2, g.yawRate);
  }

  /** A u64 message shows its value, also when that value is the omitted 0. */
  lemma Uint64Returns(v: nat)
    requires |Serialize(Uint64Fields(v))| <= MAX_SAFE
    ensures DecodeUint64Message(Some(Serialize(Uint64Fields(v)))) == Success(v)
  {
    hide Parse, Serialize, Seen, FirstBigVarint;
    ParsedShows(Uint64Fields(v));
    SeenOptVarint(1, v);
    ReadsVarint(Parse(Serialize(Uint64Fields(v))).value, 1, v);
  }

  lemma ScopeReturns(scope: seq<byte>)
    requires |Serialize(ScopeFields(scope))| <= MAX_SAFE
    ensures DecodeStringMessage(Some(Serialize(ScopeFields(scope)))) == Success(scope)
  {
    hide Parse, Serialize, Seen;
    ParsedShows(ScopeFields(scope));
    SeenOptBytes(1, scope);
    assert Get(Parse(Serialize(ScopeFields(scope))).value, 1) == BytesSeen(scope);
  }

  // ---- repeated messages ----------------------------------------------------

  function AxisBlobs(axes: seq<Axis<nat, Float>>): seq<Value> {
    if axes == [] then [] else [Blob(Serialize(AxisFields(axes[0])))] + AxisBlobs(axes[1..])
  }

  function EdgeBlobs(edges: seq<Edge<nat>>): seq<Value> {
    if edges == [] then [] else BytesSeen(Serialize(EdgeFields(edges[0]))) + EdgeBlobs(edges[1..])
  }

  function ActionBlobs(actions: seq<Action<nat>>): seq<Value> {
    if actions == [] then [] else [Blob(Serialize(ActionFields(actions[0])))] + ActionBlobs(actions[1..])
  }

  lemma {:induction false} SeenAxes(axes: seq<Axis<nat, Float>>)
    ensures forall n: nat :: Seen(AxesFields(axes), n) == if n == 1 then AxisBlobs(axes) else []
    ensures Numbered(AxesFields(axes))
  {
    hide Seen, Serialize;
    if axes == [] {
      SeenNothing();
    } else {
      var head := LenField(1, Serialize(AxisFields(axes[0])));
      SeenAppend([head], AxesFields(axes[1..]));
      SeenOne(head);
      SeenAxes(axes[1..]);
    }
  }

  lemma {:induction false} SeenEdges(edges: seq<Edge<nat>>)
    ensures forall n: nat :: Seen(EdgesFields(edges), n) == if n == 2 then EdgeBlobs(edges) else []
    ensures Numbered(EdgesFields(edges))
  {
    hide Seen, Serialize, EdgeFields;
    if edges == [] {
      SeenNothing();
    } else {
      var payload := Serialize(EdgeFields(edges[0]));
      SeenAppend(OptBytes(2, payload), EdgesFields(edges[1..]));
      SeenOptBytes(2, payload);
      SeenEdges(edges[1..]);
    }
  }

  lemma {:induction false} SeenActions(actions: seq<Action<nat>>)
    ensures forall n: nat :: Seen(ActionsFields(actions), n) == if n == 10 then ActionBlobs(actions) else []
    ensures Numbered(ActionsFields(actions))
  {
    hide Seen, Serialize;
    if actions == [] {
      SeenNothing();
    } else {
      var head := LenField(10, Serialize(ActionFields(actions[0])));
      SeenAppend([head], ActionsFields(actions[1..]));
      SeenOne(head);
      SeenActions(actions[1..]);
    }
  }

  lemma SeenNothing()
    ensures forall n: nat :: Seen([], n) == []
  {
  }

  lemma {:induction false} AxesReturn(axes: seq<Axis<nat, Float>>)
    requires |Serialize(AxesFields(axes))| <= MAX_SAFE
    ensures DecodeAll(DecodeAxis, AxisBlobs(axes)) == Success(ReadAxes(axes))
  {
    hide DecodeAxis, AxisFields, EncodeField;
    if axes != [] {
      var head := LenField(1, Serialize(AxisFields(axes[0])));
      PayloadIsShorter(AxesFields(axes), 0);
      assert AxesFields(axes)[1..] == AxesFields(axes[1..]);
      AxisReturns(axes[0]);
      AxesReturn(axes[1..]);
      assert AxisBlobs(axes)[1..] == AxisBlobs(axes[1..]);
    }
  }

  lemma {:induction false} EdgesReturn(edges: seq<Edge<nat>>)
    requires |Serialize(EdgesFields(edges))| <= MAX_SAFE
    ensures DecodeAll(DecodeEdge, EdgeBlobs(edges)) == Success(ReadEdges(edges))
  {
    hide DecodeEdge, EdgeFields, EncodeField, Serialize;
    if edges != [] {
      var payload := Serialize(EdgeFields(edges[0]));
      SerializeAppend(OptBytes(2, payload), EdgesFields(edges[1..]));
      EdgeVanishes(edges[0]);
      EdgesReturn(edges[1..]);
      if payload == [] {
        assert EdgeBlobs(edges) == EdgeBlobs(edges[1..]);
      } else {
        PayloadIsShorter(EdgesFields(edges), 0);
        EdgeReturns(edges[0]);
        assert EdgeBlobs(edges)[1..] == EdgeBlobs(edges[1..]);
      }
    }
  }

  lemma {:induction false} ActionsReturn(actions: seq<Action<nat>>)
    requires |Serialize(ActionsFields(actions))| <= MAX_SAFE
    ensures DecodeAll(DecodeAction, ActionBlobs(actions)) == Success(ReadActions(actions))
  {
    hide DecodeAction, ActionFields, EncodeField;
    if actions != [] {
      PayloadIsShorter(ActionsFields(actions), 0);
      assert ActionsFields(actions)[1..] == ActionsFields(actions[1..]);
      ActionReturns(actions[0]);
      ActionsReturn(actions[1..]);
      assert ActionBlobs(actions)[1..] == ActionBlobs(actions[1..]);
    }
  }

  // ---- payload and intent ---------------------------------------------------

  lemma PayloadReturns(axes: seq<Axis<nat, Float>>, edges: seq<Edge<nat>>)
    requires |Serialize(PayloadFields(axes, edges))| <= MAX_SAFE
    ensures DecodePayload(Some(Serialize(PayloadFields(axes, edges)))) == Success((ReadAxes(axes), ReadEdges(edges)))
  {
    hide Parse, Serialize, Seen, DecodeAll;
    SeenAxes(axes);
    SeenEdges(edges);
    ParsedShows(PayloadFields(axes, edges));
    SeenAppend(AxesFields(axes), EdgesFields(edges));
    SerializeAppend(AxesFields(axes), EdgesFields(edges));
    AxesReturn(axes);
    EdgesReturn(edges);
    var payload := Parse(Serialize(PayloadFields(axes, edges))).value;
    assert Get(payload, 1) == AxisBlobs(axes);
    assert Get(payload, 2) == EdgeBlobs(edges);
  }

  lemma IntentReturns(f: Frame)
    requires |Serialize(IntentFields(f))| <= MAX_SAFE
    ensures DecodeIntent(Some(Serialize(IntentFields(f)))) == Success((Expected(f).velocity, Expected(f).gimbalRate))
  {
    hide Parse, Serialize, Seen, DecodeVelocity, DecodeGimbal, FirstBytes, VelocityFields, AttitudeFields, GimbalFields;
    var velocity := MapOption(f.velocity, VelocityFields);
    var attitude := MapOption(f.attitude, AttitudeFields);
    var gimbal := MapOption(f.gimbalRate, GimbalFields);
    var p, q, r := OptMessage(1, velocity), OptMessage(3, attitude), OptMessage(5, gimbal);
    ParsedShows(IntentFields(f));
    SeenAppend(p, q);
    SeenAppend(p + q, r);
    SeenOptMessage(1, velocity);
    SeenOptMessage(3, attitude);
    SeenOptMessage(5, gimbal);
    var intent := Parse(Serialize(IntentFields(f))).value;
    assert Get(intent, 1) == MessageSeen(velocity);
    assert Get(intent, 5) == MessageSeen(gimbal);
    ReadsMessage(intent, 1, velocity);
    ReadsMessage(intent, 5, gimbal);
    assert p + q + r == [] + p + (q + r) && p + q + r == (p + q) + r + [];
    MessageIsShorter([], 1, velocity, q + r);
    MessageIsShorter(p + q, 5, gimbal, []);
    if f.velocity.Some? {
      VelocityReturns(f.velocity.value);
    }
    if f.gimbalRate.Some? {
      GimbalReturns(f.gimbalRate.value);
    }
  }

  // ---- the frame ------------------------------------------------------------

  function PayloadOf(f: Frame): Option<seq<Field>> {
    if HasPayload(f) then Some(PayloadFields(f.axes, f.edges)) else None
  }

  function IntentOf(f: Frame): Option<seq<Field>> {
    if HasIntent(f) then Some(IntentFields(f)) else None
  }

  lemma SeenIdentity(f: Frame)
    ensures Numbered(IdentityFields(f))
    ensures forall n: nat | n > 6 :: Seen(IdentityFields(f), n) == []
    ensures Seen(IdentityFields(f), 1) == MessageSeen(Some(Uint64Fields(f.sessionId)))
    ensures Seen(IdentityFields(f), 2) == MessageSeen(Some(Uint64Fields(f.vehicleId)))
    ensures Seen(IdentityFields(f), 3) == MessageSeen(Some(ScopeFields(f.scope)))
    ensures Seen(IdentityFields(f), 4) == MessageSeen(Some(Uint64Fields(f.generation)))
    ensures Seen(IdentityFields(f), 5) == MessageSeen(Some(Uint64Fields(f.sequence)))
    ensures Seen(IdentityFields(f), 6) == MessageSeen(Some(Uint64Fields(f.sampledAtNanos)))
  {
    hide Seen, Serialize, Uint64Fields, ScopeFields;
    var a, b, c := Message(1, Uint64Fields(f.sessionId)), Message(2, Uint64Fields(f.vehicleId)),
      Message(3, ScopeFields(f.scope));
    var d, e, g := Message(4, Uint64Fields(f.generation)), Message(5, Uint64Fields(f.sequence)),
      Message(6, Uint64Fields(f.sampledAtNanos));
    SeenAppend(a, b);
    SeenAppend(a + b, c);
    SeenAppend(a + b + c, d);
    SeenAppend(a + b + c + d, e);
    SeenAppend(a + b + c + d + e, g);
    SeenOptMessage(1, Some(Uint64Fields(f.sessionId)));
    SeenOptMessage(2, Some(Uint64Fields(f.vehicleId)));
    SeenOptMessage(3, Some(ScopeFields(f.scope)));
    SeenOptMessage(4, Some(Uint64Fields(f.generation)));
    SeenOptMessage(5, Some(Uint64Fields(f.sequence)));
    SeenOptMessage(6, Some(Uint64Fields(f.sampledAtNanos)));
  }

  lemma SeenCommand(f: Frame)
    ensures Numbered(CommandFields(f))
    ensures forall n: nat ::
      Seen(CommandFields(f), n) ==
      if n == 8 then MessageSeen(PayloadOf(f)) else if n == 9 then MessageSeen(IntentOf(f)) else []
  {
    hide Seen, Serialize, PayloadFields, IntentFields;
    SeenAppend(OptMessage(8, PayloadOf(f)), OptMessage(9, IntentOf(f)));
    SeenOptMessage(8, PayloadOf(f));
    SeenOptMessage(9, IntentOf(f));
  }

  lemma FrameIsNumbered(f: Frame)
    ensures Numbered(FrameFields(f))
  {
    hide Seen, Serialize, IdentityFields, CommandFields, ActionsFields, ActionBlobs;
    SeenIdentity(f);
    SeenCommand(f);
    SeenActions(f.actions);
  }

  /** The frame's values, number by number. */
  function FrameShows(f: Frame, n: nat): seq<Value> {
    if n == 7 then VarintSeen(f.profileRevision)
    else if n == 8 then MessageSeen(PayloadOf(f))
    else if n == 9 then MessageSeen(IntentOf(f))
    else if n == 10 then ActionBlobs(f.actions)
    else if n == 11 then VarintSeen(f.activationRevision)
    else Seen(IdentityFields(f), n)
  }

  lemma OnlyOneShows(a: seq<Value>, b: seq<Value>, c: seq<Value>, d: seq<Value>, e: seq<Value>)
    ensures b == c == d == e == [] ==> a + b + c + d + e == a
    ensures a == c == d == e == [] ==> a + b + c + d + e == b
    ensures a == b == d == e == [] ==> a + b + c + d + e == c
    ensures a == b == c == e == [] ==> a + b + c + d + e == d
    ensures a == b == c == d == [] ==> a + b + c + d + e == e
  {
  }

  lemma SeenFrame(f: Frame, n: nat)
    ensures Seen(FrameFields(f), n) == FrameShows(f, n)
  {
    hide Seen, Serialize, IdentityFields, CommandFields, ActionsFields, ActionBlobs, PayloadOf, IntentOf, Uint64Fields,
         ScopeFields;
    hide OptVarint, MessageSeen, VarintSeen, Numbered;
    var a, b, c, d, e := IdentityFields(f), OptVarint(7, f.profileRevision), CommandFields(f), ActionsFields(f.actions),
      OptVarint(11, f.activationRevision);
    SeenAppend5(a, b, c, d, e);
    SeenIdentity(f);
    SeenOptVarint(7, f.profileRevision);
    SeenCommand(f);
    SeenActions(f.actions);
    SeenOptVarint(11, f.activationRevision);
    OnlyOneShows(Seen(a, n), Seen(b, n), Seen(c, n), Seen(d, n), Seen(e, n));
  }

  lemma FramePartsAreShorter(f: Frame)
    ensures HasPayload(f) ==> |Serialize(PayloadFields(f.axes, f.edges))| <= |Serialize(FrameFields(f))|
    ensures HasIntent(f) ==> |Serialize(IntentFields(f))| <= |Serialize(FrameFields(f))|
    ensures |Serialize(ActionsFields(f.actions))| <= |Serialize(FrameFields(f))|
    ensures |IdentityFields(f)| == 6
    ensures forall i :: 0 <= i < 6 ==>
      IdentityFields(f)[i].LenField? && |IdentityFields(f)[i].payload| <= |Serialize(FrameFields(f))|
  {
    hide Serialize, PayloadFields, IntentFields, ActionsFields, OptVarint, IdentityFields;
    var a, b, c, d, e := IdentityFields(f), OptVarint(7, f.profileRevision), CommandFields(f), ActionsFields(f.actions),
      OptVarint(11, f.activationRevision);
    var p, q := OptMessage(8, PayloadOf(f)), OptMessage(9, IntentOf(f));
    assert FrameFields(f) == (a + b) + p + (q + d + e);
    MessageIsShorter(a + b, 8, PayloadOf(f), q + d + e);
    assert FrameFields(f) == (a + b + p) + q + (d + e);
    MessageIsShorter(a + b + p, 9, IntentOf(f), d + e);
    SerializeAppend(a + b + c, d);
    SerializeAppend(a + b + c + d, e);
    IdentityPayloads(f);
    forall i | 0 <= i < 6
      ensures a[i].LenField? && |a[i].payload| <= |Serialize(FrameFields(f))|
    {
      assert FrameFields(f)[i] == a[i];
      PayloadIsShorter(FrameFields(f), i);
    }
  }

  lemma IdentityPayloads(f: Frame)
    ensures |IdentityFields(f)| == 6 && forall i :: 0 <= i < 6 ==> IdentityFields(f)[i].LenField?
  {
  }

  lemma FrameParses(f: Frame)
    requires |Serialize(FrameFields(f))| <= MAX_SAFE
    ensures Parse(Serialize(FrameFields(f))).Success?
    ensures forall n: nat :: Get(Parse(Serialize(FrameFields(f))).value, n) == FrameShows(f, n)
  {
    hide Parse, Serialize, FrameFields, FrameShows, Seen;
    FrameIsNumbered(f);
    ParsedShows(FrameFields(f));
    forall n: nat {
      SeenFrame(f, n);
    }
  }

  /** Decoding any encoded frame, whatever its intents, actions, axes and edges. */
  lemma FrameReturns(f: Frame)
    requires |Serialize(FrameFields(f))| <= MAX_SAFE
    ensures DecodeControlFrame(Serialize(FrameFields(f))) == Success(Expected(f))
  {
    hide Parse, Serialize, Seen, DecodeAll, DecodePayload, DecodeIntent, DecodeStringMessage, FirstBytes, FirstVarint;
    hide FrameFields, IdentityFields, PayloadFields, IntentFields, ActionBlobs, ScopeFields, DecodeAction;
    FrameParses(f);
    SeenIdentity(f);
    FramePartsAreShorter(f);
    var fields := Parse(Serialize(FrameFields(f))).value;
    assert Get(fields, 3) == MessageSeen(Some(ScopeFields(f.scope)));
    assert Get(fields, 8) == MessageSeen(PayloadOf(f));
    assert Get(fields, 9) == MessageSeen(IntentOf(f));
    assert Get(fields, 10) == ActionBlobs(f.actions);
    ReadsMessage(fields, 3, Some(ScopeFields(f.scope)));
    ReadsMessage(fields, 8, PayloadOf(f));
    ReadsMessage(fields, 9, IntentOf(f));
    ReadsVarint(fields, 7, f.profileRevision);
    ReadsVarint(fields, 11, f.activationRevision);
    ScopePayload(f);
    ScopeReturns(f.scope);
    ActionsReturn(f.actions);
    CommandReturns(f);
  }

  lemma ScopePayload(f: Frame)
    ensures IdentityFields(f)[2] == LenField(3, Serialize(ScopeFields(f.scope)))
  {
  }

  lemma CommandReturns(f: Frame)
    requires HasPayload(f) ==> |Serialize(PayloadFields(f.axes, f.edges))| <= MAX_SAFE
    requires HasIntent(f) ==> |Serialize(IntentFields(f))| <= MAX_SAFE
    ensures DecodePayload(MapOption(PayloadOf(f), Serialize)) == Success((Expected(f).axes, Expected(f).edges))
    ensures DecodeIntent(MapOption(IntentOf(f), Serialize)) == Success((Expected(f).velocity, Expected(f).gimbalRate))
  {
    hide Parse, Serialize, DecodeAll;
    if HasPayload(f) {
      PayloadReturns(f.axes, f.edges);
    }
    if HasIntent(f) {
      IntentReturns(f);
    }
  }

  /** The six identity messages are on the wire even when their scalars are 0,
      and read back as the values given. */
  lemma IdentityIsPresent(f: Frame)
    requires |Serialize(FrameFields(f))| <= MAX_SAFE
    ensures Parse(Serialize(FrameFields(f))).Success?
    ensures var fields := Parse(Serialize(FrameFields(f))).value;
      && (forall n: nat | 1 <= n <= 6 ::
            n in fields && FirstBytes(fields, n).Success? && FirstBytes(fields, n).value.Some?)
      && DecodeUint64Message(FirstBytes(fields, 1).value) == Success(f.sessionId)
      && DecodeUint64Message(FirstBytes(fields, 2).value) == Success(f.vehicleId)
      && DecodeStringMessage(FirstBytes(fields, 3).value) == Success(f.scope)
      && DecodeUint64Message(FirstBytes(fields, 4).value) == Success(f.generation)
      && DecodeUint64Message(FirstBytes(fields, 5).value) == Success(f.sequence)
      && DecodeUint64Message(FirstBytes(fields, 6).value) == Success(f.sampledAtNanos)
  {
    hide Parse, Serialize, Seen, DecodeUint64Message, DecodeStringMessage, FirstBytes, FrameFields, Uint64Fields,
         ScopeFields;
    FrameParses(f);
    SeenIdentity(f);
    FramePartsAreShorter(f);
    var fields := Parse(Serialize(FrameFields(f))).value;
    assert forall i :: 0 <= i < 6 ==> |IdentityFields(f)[i].payload| <= MAX_SAFE;
    MessageIsRead(fields, 1, f.sessionId, IdentityFields(f)[0]);
    MessageIsRead(fields, 2, f.vehicleId, IdentityFields(f)[1]);
    MessageIsRead(fields, 4, f.generation, IdentityFields(f)[3]);
    MessageIsRead(fields, 5, f.sequence, IdentityFields(f)[4]);
    MessageIsRead(fields, 6, f.sampledAtNanos, IdentityFields(f)[5]);
    assert IdentityFields(f)[2] == LenField(3, Serialize(ScopeFields(f.scope)));
    ReadsMessage(fields, 3, Some(ScopeFields(f.scope)));
    ScopeReturns(f.scope);
    forall n: nat | 1 <= n <= 6
      ensures n in fields && FirstBytes(fields, n).Success? && FirstBytes(fields, n).value.Some?
    {
      assert n == 1 || n == 2 || n == 3 || n == 4 || n == 5 || n == 6;
    }
  }

  lemma MessageIsRead(fields: FieldMap, n: nat, v: nat, written: Field)
    requires Get(fields, n) == MessageSeen(Some(Uint64Fields(v)))
    requires written == LenField(n, Serialize(Uint64Fields(v))) && |written.payload| <= MAX_SAFE
    ensures n in fields
    ensures FirstBytes(fields, n) == Success(Some(written.payload))
    ensures DecodeUint64Message(Some(written.payload)) == Success(v)
  {
    hide Serialize, DecodeUint64Message;
    ReadsMessage(fields, n, Some(Uint64Fields(v)));
    Uint64Returns(v);
  }

  // ---- exactly when nothing is lost -----------------------------------------

  /** The word that travels is the one the number narrows to. */
  predicate KeepsFloat(f: Float) { f.word == ZERO_WORD || !Falsy(f) }

  predicate KeepsVelocity(v: Velocity<Float>) {
    KeepsFloat(v.vx) && KeepsFloat(v.vy) && KeepsFloat(v.vz) && KeepsFloat(v.yawRate)
  }

  predicate KeepsGimbal(g: GimbalRate<Float>) { KeepsFloat(g.pitchRate) && KeepsFloat(g.yawRate) }

  predicate KeepsEdge(e: Edge<nat>) { !Vanishes(e) && Exact(e.button) && Exact(e.edge) }

  predicate KeepsAction(a: Action<nat>) {
    Exact(a.action) && Exact(a.modeTarget) && Exact(a.actionId) && Exact(a.feelTarget)
  }

  /** No negative zero, no NaN, no edge with button 0 and edge code 0, and no id,
      code, target or revision with more than 53 significant bits. */
  predicate Lossless(f: Frame) {
    && Exact(f.profileRevision) && Exact(f.activationRevision)
    && (forall i :: 0 <= i < |f.axes| ==> Exact(f.axes[i].id) && KeepsFloat(f.axes[i].value))
    && (forall i :: 0 <= i < |f.edges| ==> KeepsEdge(f.edges[i]))
    && (forall i :: 0 <= i < |f.actions| ==> KeepsAction(f.actions[i]))
    && (f.velocity.Some? ==> KeepsVelocity(f.velocity.value))
    && (f.gimbalRate.Some? ==> KeepsGimbal(f.gimbalRate.value))
  }

  predicate SameAxis(d: Axis<Number, Word>, a: Axis<nat, Float>) { d == Axis(Finite(a.id), a.value.word) }

  predicate SameEdge(d: Edge<Number>, e: Edge<nat>) { d == Edge(Finite(e.button), Finite(e.edge)) }

  predicate SameAction(d: Action<Number>, a: Action<nat>) {
    d == Action(Finite(a.action), Finite(a.modeTarget), Finite(a.actionId), Finite(a.feelTarget))
  }

  function SameVelocity(v: Velocity<Float>): DecodedVelocity {
    DecodedVelocity(Finite(REFERENCE_FRAME_BODY_FRD), Velocity(v.vx.word, v.vy.word, v.vz.word, v.yawRate.word))
  }

  function SameGimbal(g: GimbalRate<Float>): GimbalRate<Word> { GimbalRate(g.pitchRate.word, g.yawRate.word) }

  /** The command read is the command given: every number itself, every float
      the word it narrows to, every list whole and in order. */
  predicate SameCommand(d: Decoded, f: Frame) {
    && d.scope == f.scope
    && d.profileRevision == Finite(f.profileRevision) && d.activationRevision == Finite(f.activationRevision)
    && |d.axes| == |f.axes| && (forall i :: 0 <= i < |f.axes| ==> SameAxis(d.axes[i], f.axes[i]))
    && |d.edges| == |f.edges| && (forall i :: 0 <= i < |f.edges| ==> SameEdge(d.edges[i], f.edges[i]))
    && |d.actions| == |f.actions| && (forall i :: 0 <= i < |f.actions| ==> SameAction(d.actions[i], f.actions[i]))
    && d.velocity == MapOption(f.velocity, SameVelocity) && d.gimbalRate == MapOption(f.gimbalRate, SameGimbal)
  }

  lemma AxisKept(a: Axis<nat, Float>)
    ensures SameAxis(Axis(ToNumber(a.id), Canon(a.value)), a) <==> Exact(a.id) && KeepsFloat(a.value)
  {
    SurvivesExactlyWhenExact(a.id);
    hide ToNumber, Exact;
  }

  lemma EdgeKept(e: Edge<nat>)
    ensures SameEdge(ReadEdge(e), e) <==> Exact(e.button) && Exact(e.edge)
  {
    SurvivesExactlyWhenExact(e.button);
    SurvivesExactlyWhenExact(e.edge);
    hide ToNumber, Exact;
  }

  lemma ActionKept(a: Action<nat>)
    ensures SameAction(ReadAction(a), a) <==> KeepsAction(a)
  {
    SurvivesExactlyWhenExact(a.action);
    SurvivesExactlyWhenExact(a.modeTarget);
    SurvivesExactlyWhenExact(a.actionId);
    SurvivesExactlyWhenExact(a.feelTarget);
    hide ToNumber, Exact;
  }

  lemma IntentsKept(f: Frame)
    ensures MapOption(f.velocity, ReadVelocity) == MapOption(f.velocity, SameVelocity) <==>
      (f.velocity.Some? ==> KeepsVelocity(f.velocity.value))
    ensures MapOption(f.gimbalRate, ReadGimbal) == MapOption(f.gimbalRate, SameGimbal) <==>
      (f.gimbalRate.Some? ==> KeepsGimbal(f.gimbalRate.value))
  {
  }

  lemma ListsKept(f: Frame)
    ensures (forall i :: 0 <= i < |f.axes| ==> SameAxis(ReadAxes(f.axes)[i], f.axes[i]))
       <==> (forall i :: 0 <= i < |f.axes| ==> Exact(f.axes[i].id) && KeepsFloat(f.axes[i].value))
    ensures (|ReadEdges(f.edges)| == |f.edges| &&
             forall i :: 0 <= i < |f.edges| ==> SameEdge(ReadEdges(f.edges)[i], f.edges[i]))
       <==> (forall i :: 0 <= i < |f.edges| ==> KeepsEdge(f.edges[i]))
    ensures (forall i :: 0 <= i < |f.actions| ==> SameAction(ReadActions(f.actions)[i], f.actions[i]))
       <==> (forall i :: 0 <= i < |f.actions| ==> KeepsAction(f.actions[i]))
  {
    hide SameAxis, SameEdge, SameAction, KeepsFloat, KeepsAction, ReadEdge, ReadAction, Exact, ToNumber, Vanishes,
         Canon;
    forall i | 0 <= i < |f.axes|
      ensures SameAxis(ReadAxes(f.axes)[i], f.axes[i]) <==> Exact(f.axes[i].id) && KeepsFloat(f.axes[i].value)
    {
      AxisKept(f.axes[i]);
    }
    forall i | 0 <= i < |f.edges|
      ensures SameEdge(ReadEdge(f.edges[i]), f.edges[i]) <==> Exact(f.edges[i].button) && Exact(f.edges[i].edge)
    {
      EdgeKept(f.edges[i]);
    }
    forall i | 0 <= i < |f.actions|
      ensures SameAction(ReadActions(f.actions)[i], f.actions[i]) <==> KeepsAction(f.actions[i])
    {
      ActionKept(f.actions[i]);
    }
    hide ReadAxes, ReadEdges, ReadActions;
  }

  /** The round trip is the identity exactly on lossless frames. */
  lemma RoundTripExactlyWhenLossless(f: Frame)
    requires |Serialize(FrameFields(f))| <= MAX_SAFE
    ensures DecodeControlFrame(Serialize(FrameFields(f))).Success?
    ensures SameCommand(DecodeControlFrame(Serialize(FrameFields(f))).value, f) <==> Lossless(f)
  {
    hide DecodeControlFrame, FrameFields, Serialize;
    FrameReturns(f);
    SurvivesExactlyWhenExact(f.profileRevision);
    SurvivesExactlyWhenExact(f.activationRevision);
    ListsKept(f);
    IntentsKept(f);
    hide SameAxis, SameEdge, SameAction, KeepsFloat, KeepsEdge, KeepsAction, Exact, ToNumber, ReadAxes, ReadEdges,
         ReadActions;
    hide MapOption, ReadVelocity, ReadGimbal, SameVelocity, SameGimbal;
  }

  /** A `bigint` action id of 2^53 + 1 is written whole and read as 2^53: such a
      frame is not lossless. */
  lemma LargeActionIdIsRounded(f: Frame, a: Action<nat>)
    requires |Serialize(FrameFields(f))| <= MAX_SAFE
    requires f.actions == [a] && a.actionId == 0x20_0000_0000_0001
    ensures DecodeControlFrame(Serialize(FrameFields(f))).Success?
    ensures var d := DecodeControlFrame(Serialize(FrameFields(f))).value;
      && |d.actions| == 1 && d.actions[0].actionId == Finite(0x20_0000_0000_0000)
      && !SameCommand(d, f) && !Lossless(f)
  {
    hide DecodeControlFrame, FrameFields, Serialize;
    FrameReturns(f);
    FirstToBeRounded();
    assert ReadActions(f.actions)[0] == ReadAction(a);
    assert !KeepsAction(f.actions[0]);
    hide ToNumber, Exact, ReadAxes, ReadEdges;
    assert !SameAction(ReadActions(f.actions)[0], f.actions[0]);
  }

  /** The source's own case: a fully neutral axis 0 stays on the wire, while an
      edge with button 0 and no edge code disappears from it. */
  lemma NeutralAxisStaysEmptyEdgeGoes(f: Frame)
    requires |f.axes| == 1 && f.axes[0].id == 0 && f.axes[0].value == Narrowed(ZERO_WORD, false)
    requires |f.edges| == 1 && f.edges[0].button == 0 && f.edges[0].edge == 0
    ensures Expected(f).axes == [Axis(Finite(0), ZERO_WORD)] && Expected(f).edges == []
  {
    SmallSurvives(0);
    assert f.edges[1..] == [];
  }

  /** Negative zero is omitted and comes back as zero; a number that only
      narrows to negative zero travels. */
  lemma NegativeZeroGoesNegativeUnderflowStays()
    ensures Canon(Narrowed(NEGATIVE_ZERO_WORD, false)) == ZERO_WORD
    ensures Canon(Narrowed(NEGATIVE_ZERO_WORD, true)) == NEGATIVE_ZERO_WORD
  {
  }
}
