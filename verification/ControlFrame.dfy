/** The control frame of clients/web/wire.js: writers, reader, and the round trip. */
module ControlFrame {
  import opened Wrappers
  import opened Bytes
  import opened Varint
  import opened Fields
  import opened Numbers

  const REFERENCE_FRAME_BODY_FRD := 1
  const SCHEMA_VERSION := 1

  // Arms of the envelope (clients/web/envelope-fields.js).
  const ENVELOPE_SCHEMA_VERSION := 1
  const ENVELOPE_CONTROL_FRAME := 2

  // What is written holds naturals (`bigint` or Number) and Numbers to be
  // narrowed; what is read holds Numbers and float words.
  datatype Velocity<W> = Velocity(vx: W, vy: W, vz: W, yawRate: W)
  datatype Attitude = Attitude(frame: nat, qw: Float, qx: Float, qy: Float, qz: Float, thrust: Float)
  datatype GimbalRate<W> = GimbalRate(pitchRate: W, yawRate: W)
  datatype Action<N> = Action(action: N, modeTarget: N, actionId: N, feelTarget: N)
  datatype Axis<N, W> = Axis(id: N, value: W)
  datatype Edge<N> = Edge(button: N, edge: N)

  /** The arguments of `encodeControlFrameEnvelope`. The scope is its UTF-8
      octets; an absent number is 0 and an absent list is empty, as the
      writers cannot tell them apart. */
  datatype Frame = Frame(
    sessionId: nat,
    vehicleId: nat,
    scope: seq<byte>,
    generation: nat,
    sequence: nat,
    sampledAtNanos: nat,
    profileRevision: nat,
    activationRevision: nat,
    velocity: Option<Velocity<Float>>,
    attitude: Option<Attitude>,
    gimbalRate: Option<GimbalRate<Float>>,
    actions: seq<Action<nat>>,
    axes: seq<Axis<nat, Float>>,
    edges: seq<Edge<nat>>)

  // ---- the messages as field lists ------------------------------------------

  function Uint64Fields(v: nat): seq<Field> { OptVarint(1, v) }

  function ScopeFields(scope: seq<byte>): seq<Field> { OptBytes(1, scope) }

  function AxisFields(a: Axis<nat, Float>): seq<Field> {
    OptVarint(1, a.id) + OptFloat(2, a.value)
  }

  function EdgeFields(e: Edge<nat>): seq<Field> {
    OptVarint(1, e.button) + OptVarint(2, e.edge)
  }

  /** Every axis is a field, even the empty one. */
  function AxesFields(axes: seq<Axis<nat, Float>>): seq<Field> {
    if axes == [] then []
    else [LenField(1, Serialize(AxisFields(axes[0])))] + AxesFields(axes[1..])
  }

  /** Edges go through the writer that skips an empty payload. */
  function EdgesFields(edges: seq<Edge<nat>>): seq<Field> {
    if edges == [] then []
    else OptBytes(2, Serialize(EdgeFields(edges[0]))) + EdgesFields(edges[1..])
  }

  function PayloadFields(axes: seq<Axis<nat, Float>>, edges: seq<Edge<nat>>): seq<Field> {
    AxesFields(axes) + EdgesFields(edges)
  }

  function VelocityFields(v: Velocity<Float>): seq<Field> {
    OptVarint(1, REFERENCE_FRAME_BODY_FRD) + OptFloat(2, v.vx) + OptFloat(3, v.vy) + OptFloat(4, v.vz)
      + OptFloat(5, v.yawRate)
  }

  function AttitudeFields(a: Attitude): seq<Field> {
    OptVarint(1, a.frame) + OptFloat(2, a.qw) + OptFloat(3, a.qx) + OptFloat(4, a.qy) + OptFloat(5, a.qz)
      + OptFloat(6, a.thrust)
  }

  function GimbalFields(g: GimbalRate<Float>): seq<Field> {
    OptFloat(1, g.pitchRate) + OptFloat(2, g.yawRate)
  }

  function OptMessage(number: nat, fs: Option<seq<Field>>): seq<Field> {
    match fs
    case None => []
    case Some(inner) => [LenField(number, Serialize(inner))]
  }

  function MapOption<A, B>(o: Option<A>, f: A -> B): Option<B> {
    match o case None => None case Some(a) => Some(f(a))
  }

  function IntentFields(f: Frame): seq<Field> {
    OptMessage(1, MapOption(f.velocity, VelocityFields))
    + OptMessage(3, MapOption(f.attitude, AttitudeFields))
    + OptMessage(5, MapOption(f.gimbalRate, GimbalFields))
  }

  function ActionFields(a: Action<nat>): seq<Field> {
    OptVarint(1, a.action) + OptVarint(2, a.modeTarget) + OptVarint(3, a.actionId) + OptVarint(4, a.feelTarget)
  }

  function ActionsFields(actions: seq<Action<nat>>): seq<Field> {
    if actions == [] then []
    else [LenField(10, Serialize(ActionFields(actions[0])))] + ActionsFields(actions[1..])
  }

  predicate HasPayload(f: Frame) { f.axes != [] || f.edges != [] }

  predicate HasIntent(f: Frame) { f.velocity.Some? || f.attitude.Some? || f.gimbalRate.Some? }

  function Message(number: nat, fs: seq<Field>): seq<Field> { OptMessage(number, Some(fs)) }

  function IdentityFields(f: Frame): seq<Field> {
    Message(1, Uint64Fields(f.sessionId)) + Message(2, Uint64Fields(f.vehicleId)) + Message(3, ScopeFields(f.scope))
    + Message(4, Uint64Fields(f.generation)) + Message(5, Uint64Fields(f.sequence))
    + Message(6, Uint64Fields(f.sampledAtNanos))
  }

  function CommandFields(f: Frame): seq<Field> {
    OptMessage(8, if HasPayload(f) then Some(PayloadFields(f.axes, f.edges)) else None)
    + OptMessage(9, if HasIntent(f) then Some(IntentFields(f)) else None)
  }

  function FrameFields(f: Frame): seq<Field> {
    IdentityFields(f)
    + OptVarint(7, f.profileRevision)
    + CommandFields(f)
    + ActionsFields(f.actions)
    + OptVarint(11, f.activationRevision)
  }

  function EnvelopeFields(number: nat, payload: seq<byte>): seq<Field> {
    OptVarint(ENVELOPE_SCHEMA_VERSION, SCHEMA_VERSION) + [LenField(number, payload)]
  }

  /** The octets of one control frame inside its envelope. */
  function EnvelopeBytes(f: Frame): seq<byte> {
    Serialize(EnvelopeFields(ENVELOPE_CONTROL_FRAME, Serialize(FrameFields(f))))
  }

  // ---- the encoders ---------------------------------------------------------

  method EncodeUint64(v: nat) returns (bytes: seq<byte>)
    ensures bytes == Serialize(Uint64Fields(v))
  {
    var out := new ByteArray();
    FieldVarint(out, 1, v);
    bytes := out.octets;
  }

  method EncodeScopeId(scope: seq<byte>) returns (bytes: seq<byte>)
    ensures bytes == Serialize(ScopeFields(scope))
  {
    var out := new ByteArray();
    FieldBytes(out, 1, scope);
    bytes := out.octets;
  }

  method EncodeAxisSample(a: Axis<nat, Float>) returns (bytes: seq<byte>)
    ensures bytes == Serialize(AxisFields(a))
  {
    var out := new ByteArray();
    FieldVarint(out, 1, a.id);
    FieldFloat(out, 2, a.value);
    SerializeAppend(OptVarint(1, a.id), OptFloat(2, a.value));
    bytes := out.octets;
  }

  method EncodeButtonEdgeSample(e: Edge<nat>) returns (bytes: seq<byte>)
    ensures bytes == Serialize(EdgeFields(e))
  {
    var out := new ByteArray();
    FieldVarint(out, 1, e.button);
    FieldVarint(out, 2, e.edge);
    SerializeAppend(OptVarint(1, e.button), OptVarint(2, e.edge));
    bytes := out.octets;
  }

  method WriteAxes(out: ByteArray, axes: seq<Axis<nat, Float>>)
    modifies out
    ensures out.octets == old(out.octets) + Serialize(AxesFields(axes))
  {
    hide EncodeField, Serialize, AxisFields;
    assert axes[0..] == axes;
    for i := 0 to |axes|
      invariant out.octets + Serialize(AxesFields(axes[i..])) == old(out.octets) + Serialize(AxesFields(axes))
    {
      var sample := EncodeAxisSample(axes[i]);
      FieldMessage(out, 1, sample);
      assert axes[i..][1..] == axes[i + 1..];
      SerializeAppend([LenField(1, sample)], AxesFields(axes[i + 1..]));
    }
    SerializeNothing();
  }

  method WriteEdges(out: ByteArray, edges: seq<Edge<nat>>)
    modifies out
    ensures out.octets == old(out.octets) + Serialize(EdgesFields(edges))
  {
    hide EncodeField, Serialize, EdgeFields, OptBytes;
    assert edges[0..] == edges;
    for i := 0 to |edges|
      invariant out.octets + Serialize(EdgesFields(edges[i..])) == old(out.octets) + Serialize(EdgesFields(edges))
    {
      var sample := EncodeButtonEdgeSample(edges[i]);
      FieldBytes(out, 2, sample);
      assert edges[i..][1..] == edges[i + 1..];
      SerializeAppend(OptBytes(2, sample), EdgesFields(edges[i + 1..]));
    }
    SerializeNothing();
  }

  method EncodeControlPayload(axes: seq<Axis<nat, Float>>, edges: seq<Edge<nat>>) returns (bytes: seq<byte>)
    ensures bytes == Serialize(PayloadFields(axes, edges))
  {
    hide EncodeField, Serialize, AxesFields, EdgesFields;
    var out := new ByteArray();
    WriteAxes(out, axes);
    WriteEdges(out, edges);
    SerializeAppend(AxesFields(axes), EdgesFields(edges));
    bytes := out.octets;
  }

  lemma SerializeNothing()
    ensures Serialize([]) == []
  {
  }

  method EncodeVelocityIntent(v: Velocity<Float>) returns (bytes: seq<byte>)
    ensures bytes == Serialize(VelocityFields(v))
  {
    hide EncodeField, Serialize;
    var out := new ByteArray();
    FieldVarint(out, 1, REFERENCE_FRAME_BODY_FRD);
    FieldFloat(out, 2, v.vx);
    FieldFloat(out, 3, v.vy);
    FieldFloat(out, 4, v.vz);
    FieldFloat(out, 5, v.yawRate);
    var a := OptVarint(1, REFERENCE_FRAME_BODY_FRD);
    SerializeAppend(a, OptFloat(2, v.vx));
    SerializeAppend(a + OptFloat(2, v.vx), OptFloat(3, v.vy));
    SerializeAppend(a + OptFloat(2, v.vx) + OptFloat(3, v.vy), OptFloat(4, v.vz));
    SerializeAppend(a + OptFloat(2, v.vx) + OptFloat(3, v.vy) + OptFloat(4, v.vz), OptFloat(5, v.yawRate));
    bytes := out.octets;
  }

  method EncodeAttitudeThrustIntent(t: Attitude) returns (bytes: seq<byte>)
    ensures bytes == Serialize(AttitudeFields(t))
  {
    hide EncodeField, Serialize, OptVarint, OptFloat;
    var out := new ByteArray();
    FieldVarint(out, 1, t.frame);
    FieldFloat(out, 2, t.qw);
    FieldFloat(out, 3, t.qx);
    FieldFloat(out, 4, t.qy);
    FieldFloat(out, 5, t.qz);
    FieldFloat(out, 6, t.thrust);
    ghost var a := OptVarint(1, t.frame);
    ghost var b := a + OptFloat(2, t.qw);
    ghost var c := b + OptFloat(3, t.qx);
    ghost var d := c + OptFloat(4, t.qy);
    ghost var e := d + OptFloat(5, t.qz);
    SerializeAppend(a, OptFloat(2, t.qw));
    SerializeAppend(b, OptFloat(3, t.qx));
    SerializeAppend(c, OptFloat(4, t.qy));
    SerializeAppend(d, OptFloat(5, t.qz));
    SerializeAppend(e, OptFloat(6, t.thrust));
    bytes := out.octets;
  }

  method EncodeGimbalRateIntent(g: GimbalRate<Float>) returns (bytes: seq<byte>)
    ensures bytes == Serialize(GimbalFields(g))
  {
    hide EncodeField, Serialize;
    var out := new ByteArray();
    FieldFloat(out, 1, g.pitchRate);
    FieldFloat(out, 2, g.yawRate);
    SerializeAppend(OptFloat(1, g.pitchRate), OptFloat(2, g.yawRate));
    bytes := out.octets;
  }

  method EncodeControlIntent(f: Frame) returns (bytes: seq<byte>)
    ensures bytes == Serialize(IntentFields(f))
  {
    hide EncodeField, Serialize;
    SerializeNothing();
    var out := new ByteArray();
    if f.velocity.Some? {
      var inner := EncodeVelocityIntent(f.velocity.value);
      FieldMessage(out, 1, inner);
    }
    var a := OptMessage(1, MapOption(f.velocity, VelocityFields));
    assert out.octets == Serialize(a);
    if f.attitude.Some? {
      var inner := EncodeAttitudeThrustIntent(f.attitude.value);
      FieldMessage(out, 3, inner);
    }
    var b := OptMessage(3, MapOption(f.attitude, AttitudeFields));
    SerializeAppend(a, b);
    assert out.octets == Serialize(a + b);
    if f.gimbalRate.Some? {
      var inner := EncodeGimbalRateIntent(f.gimbalRate.value);
      FieldMessage(out, 5, inner);
    }
    SerializeAppend(a + b, OptMessage(5, MapOption(f.gimbalRate, GimbalFields)));
    bytes := out.octets;
  }

  method EncodeControlActionRequest(r: Action<nat>) returns (bytes: seq<byte>)
    ensures bytes == Serialize(ActionFields(r))
  {
    hide EncodeField, Serialize;
    var out := new ByteArray();
    FieldVarint(out, 1, r.action);
    FieldVarint(out, 2, r.modeTarget);
    FieldVarint(out, 3, r.actionId);
    FieldVarint(out, 4, r.feelTarget);
    var a := OptVarint(1, r.action);
    SerializeAppend(a, OptVarint(2, r.modeTarget));
    SerializeAppend(a + OptVarint(2, r.modeTarget), OptVarint(3, r.actionId));
    SerializeAppend(a + OptVarint(2, r.modeTarget) + OptVarint(3, r.actionId), OptVarint(4, r.feelTarget));
    bytes := out.octets;
  }

  /** The six messages every frame carries. */
  method WriteIdentity(frame: ByteArray, f: Frame)
    modifies frame
    ensures frame.octets == old(frame.octets) + Serialize(IdentityFields(f))
  {
    hide EncodeField, Serialize, OptVarint, OptBytes;
    var session := EncodeUint64(f.sessionId);
    FieldMessage(frame, 1, session);
    var vehicle := EncodeUint64(f.vehicleId);
    FieldMessage(frame, 2, vehicle);
    var scope := EncodeScopeId(f.scope);
    FieldMessage(frame, 3, scope);
    var generation := EncodeUint64(f.generation);
    FieldMessage(frame, 4, generation);
    var sequence := EncodeUint64(f.sequence);
    FieldMessage(frame, 5, sequence);
    var sampled := EncodeUint64(f.sampledAtNanos);
    FieldMessage(frame, 6, sampled);
    hide ScopeFields, Uint64Fields;
    ghost var a := [LenField(1, session)];
    ghost var b := a + [LenField(2, vehicle)];
    ghost var c := b + [LenField(3, scope)];
    ghost var d := c + [LenField(4, generation)];
    ghost var e := d + [LenField(5, sequence)];
    SerializeAppend(a, [LenField(2, vehicle)]);
    SerializeAppend(b, [LenField(3, scope)]);
    SerializeAppend(c, [LenField(4, generation)]);
    SerializeAppend(d, [LenField(5, sequence)]);
    SerializeAppend(e, [LenField(6, sampled)]);
    assert IdentityFields(f) == e + [LenField(6, sampled)];
  }

  method WriteActions(frame: ByteArray, actions: seq<Action<nat>>)
    modifies frame
    ensures frame.octets == old(frame.octets) + Serialize(ActionsFields(actions))
  {
    hide EncodeField, Serialize;
    assert actions[0..] == actions;
    for i := 0 to |actions|
      invariant frame.octets + Serialize(ActionsFields(actions[i..]))
        == old(frame.octets) + Serialize(ActionsFields(actions))
    {
      var request := EncodeControlActionRequest(actions[i]);
      FieldMessage(frame, 10, request);
      assert actions[i..][1..] == actions[i + 1..];
      SerializeAppend([LenField(10, request)], ActionsFields(actions[i + 1..]));
    }
    SerializeNothing();
  }

  /** The optional payload and intent, fields 8 and 9. */
  method WriteCommand(frame: ByteArray, f: Frame)
    modifies frame
    ensures frame.octets == old(frame.octets) + Serialize(CommandFields(f))
  {
    hide EncodeField, Serialize, PayloadFields, IntentFields;
    SerializeNothing();
    if |f.axes| != 0 || |f.edges| != 0 {
      var payload := EncodeControlPayload(f.axes, f.edges);
      FieldMessage(frame, 8, payload);
    }
    ghost var payloadFields := OptMessage(8, if HasPayload(f) then Some(PayloadFields(f.axes, f.edges)) else None);
    assert frame.octets == old(frame.octets) + Serialize(payloadFields);
    if f.velocity.Some? || f.attitude.Some? || f.gimbalRate.Some? {
      var intent := EncodeControlIntent(f);
      FieldMessage(frame, 9, intent);
    }
    ghost var intentFields := OptMessage(9, if HasIntent(f) then Some(IntentFields(f)) else None);
    SerializeAppend(payloadFields, intentFields);
  }

  method EncodeControlFrameEnvelope(f: Frame) returns (bytes: seq<byte>)
    ensures bytes == EnvelopeBytes(f)
  {
    hide EncodeField, Serialize, IdentityFields, CommandFields, ActionsFields, OptVarint;
    var frame := new ByteArray();
    WriteIdentity(frame, f);
    FieldVarint(frame, 7, f.profileRevision);
    WriteCommand(frame, f);
    WriteActions(frame, f.actions);
    FieldVarint(frame, 11, f.activationRevision);
    ghost var a := IdentityFields(f);
    ghost var b := a + OptVarint(7, f.profileRevision);
    ghost var c := b + CommandFields(f);
    SerializeAppend(a, OptVarint(7, f.profileRevision));
    SerializeAppend(b, CommandFields(f));
    SerializeAppend(c, ActionsFields(f.actions));
    SerializeAppend(c + ActionsFields(f.actions), OptVarint(11, f.activationRevision));
    assert frame.octets == Serialize(FrameFields(f));
    var out := new ByteArray();
    FieldVarint(out, ENVELOPE_SCHEMA_VERSION, SCHEMA_VERSION);
    FieldMessage(out, ENVELOPE_CONTROL_FRAME, frame.octets);
    SerializeAppend(OptVarint(ENVELOPE_SCHEMA_VERSION, SCHEMA_VERSION),
                    [LenField(ENVELOPE_CONTROL_FRAME, frame.octets)]);
    bytes := out.octets;
  }

  // ---- the reader -----------------------------------------------------------

  /** What `decodeControlFrame` returns. */
  datatype DecodedVelocity = DecodedVelocity(frame: Number, velocity: Velocity<Word>)
  datatype Decoded = Decoded(
    scope: seq<byte>,
    profileRevision: Number,
    activationRevision: Number,
    axes: seq<Axis<Number, Word>>,
    edges: seq<Edge<Number>>,
    velocity: Option<DecodedVelocity>,
    gimbalRate: Option<GimbalRate<Word>>,
    actions: seq<Action<Number>>)

  function AsBlob(v: Value): Result<seq<byte>, ParseError> {
    match v
    case Blob(octets) => Success(octets)
    case Integer(_) => Failure(WrongKind)
  }

  function FirstBytes(fields: FieldMap, number: nat): Result<Option<seq<byte>>, ParseError> {
    var values := Get(fields, number);
    if values == [] then Success(None)
    else
      var octets :- AsBlob(values[0]);
      Success(Some(octets))
  }

  function FirstBigVarint(fields: FieldMap, number: nat): Result<nat, ParseError> {
    var values := Get(fields, number);
    if values == [] then Success(0)
    else match values[0]
      case Integer(v) => Success(v)
      case Blob(_) => Failure(WrongKind)
  }

  /** The same through `Number()`, which rounds. */
  function FirstVarint(fields: FieldMap, number: nat): Result<Number, ParseError> {
    var v :- FirstBigVarint(fields, number);
    Success(ToNumber(v))
  }

  function DecodeFloat32(view: Option<seq<byte>>): Word {
    if view.None? || |view.value| < 4 then ZERO_WORD else view.value[..4]
  }

  function FirstFloat(fields: FieldMap, number: nat): Result<Word, ParseError> {
    var view :- FirstBytes(fields, number);
    Success(DecodeFloat32(view))
  }

  function DecodeUint64Message(bytes: Option<seq<byte>>): Result<nat, ParseError> {
    if bytes.None? then Success(0)
    else
      var fields :- Parse(bytes.value);
      FirstBigVarint(fields, 1)
  }

  function DecodeStringMessage(bytes: Option<seq<byte>>): Result<seq<byte>, ParseError> {
    if bytes.None? then Success([])
    else
      var fields :- Parse(bytes.value);
      var raw :- FirstBytes(fields, 1);
      Success(raw.GetOr([]))
  }

  function DecodeAxis(bytes: seq<byte>): Result<Axis<Number, Word>, ParseError> {
    var a :- Parse(bytes);
    var id :- FirstVarint(a, 1);
    var value :- FirstFloat(a, 2);
    Success(Axis(id, value))
  }

  function DecodeEdge(bytes: seq<byte>): Result<Edge<Number>, ParseError> {
    var e :- Parse(bytes);
    var button :- FirstVarint(e, 1);
    var edge :- FirstVarint(e, 2);
    Success(Edge(button, edge))
  }

  function DecodeAction(bytes: seq<byte>): Result<Action<Number>, ParseError> {
    var a :- Parse(bytes);
    var action :- FirstVarint(a, 1);
    var modeTarget :- FirstVarint(a, 2);
    var actionId :- FirstVarint(a, 3);
    var feelTarget :- FirstVarint(a, 4);
    Success(Action(action, modeTarget, actionId, feelTarget))
  }

  function DecodeAll<T>(decode: seq<byte> -> Result<T, ParseError>, values: seq<Value>): Result<seq<T>, ParseError> {
    if values == [] then Success([])
    else
      var bytes :- AsBlob(values[0]);
      var first :- decode(bytes);
      var rest :- DecodeAll(decode, values[1..]);
      Success([first] + rest)
  }

  function DecodeVelocity(bytes: seq<byte>): Result<DecodedVelocity, ParseError> {
    var v :- Parse(bytes);
    var frame :- FirstVarint(v, 1);
    var vx :- FirstFloat(v, 2);
    var vy :- FirstFloat(v, 3);
    var vz :- FirstFloat(v, 4);
    var yawRate :- FirstFloat(v, 5);
    Success(DecodedVelocity(frame, Velocity(vx, vy, vz, yawRate)))
  }

  function DecodeGimbal(bytes: seq<byte>): Result<GimbalRate<Word>, ParseError> {
    var g :- Parse(bytes);
    var pitchRate :- FirstFloat(g, 1);
    var yawRate :- FirstFloat(g, 2);
    Success(GimbalRate(pitchRate, yawRate))
  }

  function DecodeOpt<T>(decode: seq<byte> -> Result<T, ParseError>,
                        bytes: Option<seq<byte>>): Result<Option<T>, ParseError> {
    if bytes.None? then Success(None)
    else
      var t :- decode(bytes.value);
      Success(Some(t))
  }

  function DecodePayload(bytes: Option<seq<byte>>): Result<(seq<Axis<Number, Word>>, seq<Edge<Number>>), ParseError> {
    if bytes.None? then Success(([], []))
    else
      var payload :- Parse(bytes.value);
      var axes :- DecodeAll(DecodeAxis, Get(payload, 1));
      var edges :- DecodeAll(DecodeEdge, Get(payload, 2));
      Success((axes, edges))
  }

  function DecodeIntent(bytes: Option<seq<byte>>)
    : Result<(Option<DecodedVelocity>, Option<GimbalRate<Word>>), ParseError>
  {
    if bytes.None? then Success((None, None))
    else
      var intent :- Parse(bytes.value);
      var velocityBytes :- FirstBytes(intent, 1);
      var velocity :- DecodeOpt(DecodeVelocity, velocityBytes);
      var gimbalBytes :- FirstBytes(intent, 5);
      var gimbalRate :- DecodeOpt(DecodeGimbal, gimbalBytes);
      Success((velocity, gimbalRate))
  }

  function DecodeControlFrame(bytes: seq<byte>): Result<Decoded, ParseError> {
    var f :- Parse(bytes);
    var payloadBytes :- FirstBytes(f, 8);
    var payload :- DecodePayload(payloadBytes);
    var intentBytes :- FirstBytes(f, 9);
    var intent :- DecodeIntent(intentBytes);
    var actions :- DecodeAll(DecodeAction, Get(f, 10));
    var scopeBytes :- FirstBytes(f, 3);
    var scope :- DecodeStringMessage(scopeBytes);
    var profileRevision :- FirstVarint(f, 7);
    var activationRevision :- FirstVarint(f, 11);
    Success(Decoded(scope, profileRevision, activationRevision, payload.0, payload.1, intent.0, intent.1, actions))
  }
}
