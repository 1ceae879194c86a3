/** What the state frame writer puts in each group: clients/web/state-abi.js and
    clients/web/state-abi-equipment.js. A field that is undefined or null is
    `None`; a float is its four octets. */
module StateAbi {
  import opened Wrappers
  import opened Bytes
  import opened StateFrame

  type F = Option<Word>
  type B = Option<int>

  // ---- entities -------------------------------------------------------------

  datatype Attitude = Attitude(w: F, x: F, y: F, z: F, rate0: F, rate1: F, rate2: F, age: F)
  datatype Kinematics = Kinematics(north: F, east: F, down: F, vNorth: F, vEast: F, vDown: F, age: F)
  datatype Air = Air(ias: F, baro: F, age: F, tas: F)
  datatype Nav = Nav(source: B, fromto: B, courseReference: B, course: F, cdi: F, vdev: F, dist: F, age: F,
                     toIdent: Text, fromIdent: Text, scale: B)
  datatype Wind = Wind(from: F, speed: F, age: F)
  datatype Selections = Selections(bug: F, bugReference: B, altClass: B, altModel: B, alt: F, originId: B, baro: F)
  datatype Valid = Valid(attitude: bool, rates: bool, position: bool, velocityHorizontal: bool, heading: bool,
                         variation: bool, turn: bool, slip: bool, velocityVertical: bool, iasTrend: bool)
  datatype Altitude = Altitude(referenceClass: B, geoidModel: B, sample: F, originId: B)
  datatype Heading = Heading(reference: B, rad: F, age: F)
  datatype Variation = Variation(sourceId: B, east: F, age: F)
  datatype Dynamics = Dynamics(turnBasis: B, turn: F, lateral: F, age: F, iasTrend: F)
  datatype MonitorText = MonitorText(lines: seq<Text>, revision: B, age: F)
  datatype Director = Director(mode: B, engagement: B, pitch: F, roll: F, age: F)
  datatype Pointer = Pointer(source: B, reference: B, valid: bool, bearing: F)
  datatype Bearings = Bearings(first: Pointer, second: Pointer, age: F)
  datatype Airframe = Airframe(flap: F, flapSelected: F, elevatorTrim: F, aileronTrim: F, rudderTrim: F, age: F)
  datatype ApModes = ApModes(engagement: B, lateralActive: B, lateralArmed: B, verticalActive: B, verticalArmed: B,
                             age: F)
  datatype ApTargets = ApTargets(airspeed: F, altClass: B, altModel: B, alt: F, originId: B, verticalSpeed: F)

  datatype State = State(
    attitude: Option<Attitude>, kinematics: Option<Kinematics>, air: Option<Air>, nav: Option<Nav>, wind: Option<Wind>,
    selections: Option<Selections>, quality: B, valid: Valid, coherence: B, generation: B,
    altitude: Option<Altitude>, heading: Option<Heading>, variation: Option<Variation>, dynamics: Option<Dynamics>,
    monitorText: Option<MonitorText>, director: Option<Director>, bearings: Option<Bearings>,
    airframe: Option<Airframe>, apModes: Option<ApModes>, apTargets: Option<ApTargets>)

  // ---- group tables ---------------------------------------------------------

  function Floats(words: seq<F>): (atoms: seq<Atom>)
    ensures |atoms| == |words|
  {
    seq(|words|, i requires 0 <= i < |words| => Float(words[i]))
  }

  function Octets(values: seq<int>): (atoms: seq<Atom>)
    ensures |atoms| == |values|
  {
    seq(|values|, i requires 0 <= i < |values| => Octet(values[i]))
  }

  /** `v ?? word`. */
  function Else(v: F, word: Word): F {
    Some(v.GetOr(word))
  }

  function AttitudeAtoms(a: Attitude): seq<Atom> {
    Floats([Else(a.w, ONE), Else(a.x, ZERO), Else(a.y, ZERO), Else(a.z, ZERO),
            Else(a.rate0, ZERO), Else(a.rate1, ZERO), Else(a.rate2, ZERO), a.age])
  }

  function KinematicsAtoms(k: Kinematics): seq<Atom> {
    Floats([Else(k.north, ZERO), Else(k.east, ZERO), Else(k.down, ZERO),
            Else(k.vNorth, ZERO), Else(k.vEast, ZERO), Else(k.vDown, ZERO), k.age])
  }

  function AirAtoms(a: Air): seq<Atom> {
    Floats([a.ias, a.baro, a.age, a.tas])
  }

  const IDENT_CAPACITY: byte := 8
  const TEXT_LINE_CAPACITY: byte := 32
  const TEXT_MAX_LINES := 8

  function NavAtoms(n: Nav): seq<Atom> {
    Octets([n.source.GetOr(0), n.fromto.GetOr(0), n.courseReference.GetOr(255), 0])
    + Floats([Else(n.course, ZERO), Else(n.cdi, ZERO), n.vdev, n.dist, n.age])
    + [TextAtom(n.toIdent, IDENT_CAPACITY, Ident), TextAtom(n.fromIdent, IDENT_CAPACITY, Ident),
       Octet(n.scale.GetOr(255))]
  }

  function WindAtoms(w: Wind): seq<Atom> {
    Floats([Else(w.from, ZERO), Else(w.speed, ZERO), w.age])
  }

  function SelectionsAtoms(s: Selections): seq<Atom> {
    Floats([Else(s.bug, ZERO)])
    + Octets([s.bugReference.GetOr(255), s.altClass.GetOr(0), s.altModel.GetOr(0), 0])
    + [Float(s.alt), Uint32(s.originId.GetOr(0)), Float(s.baro)]
  }

  function Bit(on: bool, mask: nat): nat {
    if on then mask else 0
  }

  function Flags(v: Valid): nat {
    Bit(v.attitude, 0x01) + Bit(v.rates, 0x02) + Bit(v.position, 0x04) + Bit(v.velocityHorizontal, 0x08)
    + Bit(v.heading, 0x10) + Bit(v.variation, 0x20) + Bit(v.turn, 0x40) + Bit(v.slip, 0x80)
    + Bit(v.velocityVertical, 0x100) + Bit(v.iasTrend, 0x200)
  }

  /** Trust is left out when quality, flags and snapshot are all undeclared. */
  predicate DeclaresTrust(s: State) {
    || s.quality.GetOr(255) != 255
    || s.valid.attitude || s.valid.rates || s.valid.position || s.valid.velocityHorizontal || s.valid.velocityVertical
    || s.valid.heading || s.valid.variation || s.valid.turn || s.valid.slip || s.valid.iasTrend
    || s.coherence.GetOr(0) != 0 || s.generation.GetOr(0) != 0
  }

  function TrustAtoms(s: State): seq<Atom> {
    Octets([s.quality.GetOr(255), s.coherence.GetOr(0)]) + [Uint16(Flags(s.valid)), Uint32(s.generation.GetOr(0))]
  }

  function AltitudeAtoms(a: Altitude): seq<Atom> {
    Octets([a.referenceClass.GetOr(0), a.geoidModel.GetOr(0), 0, 0]) + [Float(a.sample), Uint32(a.originId.GetOr(0))]
  }

  function HeadingAtoms(h: Heading): seq<Atom> {
    Octets([h.reference.GetOr(255), 0, 0, 0]) + Floats([h.rad, h.age])
  }

  function VariationAtoms(v: Variation): seq<Atom> {
    Octets([v.sourceId.GetOr(0), 0, 0, 0]) + Floats([v.east, v.age])
  }

  function DynamicsAtoms(d: Dynamics): seq<Atom> {
    Octets([d.turnBasis.GetOr(255), 0, 0, 0]) + Floats([d.turn, d.lateral, d.age, d.iasTrend])
  }

  /** One line slot: text, or zeros past the last line. */
  function LineAtom(lines: seq<Text>, i: nat): Atom {
    if i < |lines| then TextAtom(lines[i], TEXT_LINE_CAPACITY, Line) else Blank(TEXT_LINE_CAPACITY as nat + 1)
  }

  function LineAtoms(lines: seq<Text>): (atoms: seq<Atom>)
    ensures |atoms| == TEXT_MAX_LINES
  {
    seq(TEXT_MAX_LINES, i requires 0 <= i < TEXT_MAX_LINES => LineAtom(lines, i))
  }

  function MonitorAtoms(m: MonitorText): seq<Atom> {
    Octets([|m.lines|, 0]) + [Uint32(m.revision.GetOr(0))] + LineAtoms(m.lines) + [Float(m.age)]
  }

  function DirectorAtoms(d: Director): seq<Atom> {
    Octets([d.mode.GetOr(255), d.engagement.GetOr(255), 0, 0]) + Floats([d.pitch, d.roll, d.age])
  }

  function PointerAtoms(p: Pointer): seq<Atom> {
    Octets([p.source.GetOr(0), p.reference.GetOr(255), if p.valid then 1 else 0, 0]) + Floats([Else(p.bearing, ZERO)])
  }

  function BearingsAtoms(b: Bearings): seq<Atom> {
    PointerAtoms(b.first) + PointerAtoms(b.second) + Floats([b.age])
  }

  function AirframeAtoms(a: Airframe): seq<Atom> {
    Floats([a.flap, a.flapSelected, a.elevatorTrim, a.aileronTrim, a.rudderTrim, a.age])
  }

  function ApModesAtoms(m: ApModes): seq<Atom> {
    Octets([m.engagement.GetOr(255), m.lateralActive.GetOr(255), m.lateralArmed.GetOr(255),
            m.verticalActive.GetOr(255), m.verticalArmed.GetOr(255), 0, 0, 0])
    + Floats([m.age])
  }

  function ApTargetsAtoms(t: ApTargets): seq<Atom> {
    Floats([t.airspeed]) + Octets([t.altClass.GetOr(0), t.altModel.GetOr(0), 0, 0])
    + [Float(t.alt), Uint32(t.originId.GetOr(0)), Float(t.verticalSpeed)]
  }

  function Of<T>(group: Option<T>, atoms: T -> seq<Atom>): Group {
    match group
    case None => Missing
    case Some(g) => Present(atoms(g))
  }

  function MonitorGroup(m: Option<MonitorText>): Group {
    if m.Some? && |m.value.lines| > TEXT_MAX_LINES then Overlong else Of(m, MonitorAtoms)
  }

  function Entries(s: State): (entries: seq<Entry>)
    ensures |entries| == 17
  {
    [Entry(0x01, Of(s.attitude, AttitudeAtoms)),
     Entry(0x02, Of(s.kinematics, KinematicsAtoms)),
     Entry(0x03, Of(s.air, AirAtoms)),
     Entry(0x04, Of(s.nav, NavAtoms)),
     Entry(0x05, Of(s.wind, WindAtoms)),
     Entry(0x06, Of(s.selections, SelectionsAtoms)),
     Entry(0x07, if DeclaresTrust(s) then Present(TrustAtoms(s)) else Missing),
     Entry(0x08, Of(s.altitude, AltitudeAtoms)),
     Entry(0x09, Of(s.heading, HeadingAtoms)),
     Entry(0x0a, Of(s.variation, VariationAtoms)),
     Entry(0x0b, Of(s.dynamics, DynamicsAtoms)),
     Entry(0x0c, MonitorGroup(s.monitorText)),
     Entry(0x0d, Of(s.director, DirectorAtoms)),
     Entry(0x12, Of(s.bearings, BearingsAtoms)),
     Entry(0x13, Of(s.airframe, AirframeAtoms)),
     Entry(0x14, Of(s.apModes, ApModesAtoms)),
     Entry(0x15, Of(s.apTargets, ApTargetsAtoms))]
  }

  /** The tag of each table entry. */
  const TAGS: seq<byte> := [0x01, 0x02, 0x03, 0x04, 0x05, 0x06, 0x07, 0x08, 0x09, 0x0a, 0x0b, 0x0c, 0x0d, 0x12, 0x13,
                            0x14, 0x15]

  function TagOf(i: nat): byte
    requires i < 17
  {
    TAGS[i]
  }

  lemma TagIs(s: State, i: nat)
    requires i < 17
    ensures Entries(s)[i].tag == TagOf(i)
  {
  }

  /** The payload length each tag's encoder returns. */
  const LENGTHS: seq<nat> := [32, 28, 16, 43, 12, 20, 8, 12, 12, 12, 20, 274, 16, 20, 24, 12, 20]

  function PayloadLength(i: nat): (length: nat)
    requires i < 17
    ensures length < 0x1_0000
  {
    LENGTHS[i]
  }

  // ---- sizes ----------------------------------------------------------------

  predicate AllOk(atoms: seq<Atom>) {
    forall i :: 0 <= i < |atoms| ==> AtomOk(atoms[i])
  }

  lemma {:induction false} FloatsAre(words: seq<F>)
    ensures |Payload(Floats(words))| == 4 * |words| && AllOk(Floats(words))
  {
    if words != [] {
      assert Floats(words)[1..] == Floats(words[1..]);
      FloatsAre(words[1..]);
    }
  }

  lemma {:induction false} OctetsAre(values: seq<int>)
    ensures |Payload(Octets(values))| == |values| && AllOk(Octets(values))
  {
    if values != [] {
      assert Octets(values)[1..] == Octets(values[1..]);
      OctetsAre(values[1..]);
    }
  }

  lemma {:induction false} SlotsAre(atoms: seq<Atom>)
    requires forall i :: 0 <= i < |atoms| ==> |AtomBytes(atoms[i])| == 33
    ensures |Payload(atoms)| == 33 * |atoms|
  {
    if atoms != [] {
      SlotsAre(atoms[1..]);
      hide AtomBytes;
    }
  }

  lemma LinesAre(lines: seq<Text>)
    ensures |Payload(LineAtoms(lines))| == 264 && AllOk(LineAtoms(lines))
  {
    SlotsAre(LineAtoms(lines));
  }

  lemma Joined(a: seq<Atom>, b: seq<Atom>)
    ensures |Payload(a + b)| == |Payload(a)| + |Payload(b)|
    ensures AllOk(a) && AllOk(b) ==> AllOk(a + b)
  {
    PayloadAppend(a, b);
    hide Payload, AtomOk;
  }

  lemma Single(a: Atom)
    ensures |Payload([a])| == |AtomBytes(a)| && (AtomOk(a) ==> AllOk([a]))
  {
    assert [a][1..] == [];
  }

  lemma Pair(a: Atom, b: Atom)
    ensures |Payload([a, b])| == |AtomBytes(a)| + |AtomBytes(b)| && (AtomOk(a) && AtomOk(b) ==> AllOk([a, b]))
  {
    Single(a);
    Single(b);
    Joined([a], [b]);
    assert [a] + [b] == [a, b];
    hide AtomBytes, Payload;
  }

  lemma Triple(a: Atom, b: Atom, c: Atom)
    ensures |Payload([a, b, c])| == |AtomBytes(a)| + |AtomBytes(b)| + |AtomBytes(c)|
    ensures AtomOk(a) && AtomOk(b) && AtomOk(c) ==> AllOk([a, b, c])
  {
    Pair(a, b);
    Single(c);
    Joined([a, b], [c]);
    assert [a, b] + [c] == [a, b, c];
    hide AtomBytes, Payload;
  }

  /** A group's atoms are storable and as long as its encoder says. */
  predicate Sized(atoms: seq<Atom>, length: nat) {
    atoms != [] && |Payload(atoms)| == length && AllOk(atoms)
  }

  lemma NavSized(n: Nav)
    ensures Sized(NavAtoms(n), 43)
  {
    hide Payload, AllOk;
    var octets := [n.source.GetOr(0), n.fromto.GetOr(0), n.courseReference.GetOr(255), 0];
    var floats := [Else(n.course, ZERO), Else(n.cdi, ZERO), n.vdev, n.dist, n.age];
    var a, b, c := TextAtom(n.toIdent, IDENT_CAPACITY, Ident), TextAtom(n.fromIdent, IDENT_CAPACITY, Ident),
      Octet(n.scale.GetOr(255));
    OctetsAre(octets);
    FloatsAre(floats);
    Triple(a, b, c);
    Joined(Octets(octets), Floats(floats));
    Joined(Octets(octets) + Floats(floats), [a, b, c]);
  }

  lemma SelectionsSized(s: Selections)
    ensures Sized(SelectionsAtoms(s), 20)
  {
    hide Payload, AllOk;
    var octets := [s.bugReference.GetOr(255), s.altClass.GetOr(0), s.altModel.GetOr(0), 0];
    FloatsAre([Else(s.bug, ZERO)]);
    OctetsAre(octets);
    Triple(Float(s.alt), Uint32(s.originId.GetOr(0)), Float(s.baro));
    Joined(Floats([Else(s.bug, ZERO)]), Octets(octets));
    Joined(Floats([Else(s.bug, ZERO)]) + Octets(octets), [Float(s.alt), Uint32(s.originId.GetOr(0)), Float(s.baro)]);
  }

  lemma ApTargetsSized(t: ApTargets)
    ensures Sized(ApTargetsAtoms(t), 20)
  {
    hide Payload, AllOk;
    var octets := [t.altClass.GetOr(0), t.altModel.GetOr(0), 0, 0];
    FloatsAre([t.airspeed]);
    OctetsAre(octets);
    Triple(Float(t.alt), Uint32(t.originId.GetOr(0)), Float(t.verticalSpeed));
    Joined(Floats([t.airspeed]), Octets(octets));
    Joined(Floats([t.airspeed]) + Octets(octets), [Float(t.alt), Uint32(t.originId.GetOr(0)), Float(t.verticalSpeed)]);
  }

  lemma TrustSized(s: State)
    ensures Sized(TrustAtoms(s), 8)
  {
    hide Payload, AllOk;
    OctetsAre([s.quality.GetOr(255), s.coherence.GetOr(0)]);
    Pair(Uint16(Flags(s.valid)), Uint32(s.generation.GetOr(0)));
    Joined(Octets([s.quality.GetOr(255), s.coherence.GetOr(0)]),
           [Uint16(Flags(s.valid)), Uint32(s.generation.GetOr(0))]);
  }

  lemma MonitorSized(m: MonitorText)
    ensures Sized(MonitorAtoms(m), 274)
  {
    hide Payload, AllOk, LineAtoms;
    var front := Octets([|m.lines|, 0]);
    OctetsAre([|m.lines|, 0]);
    Single(Uint32(m.revision.GetOr(0)));
    Single(Float(m.age));
    LinesAre(m.lines);
    Joined(front, [Uint32(m.revision.GetOr(0))]);
    Joined(front + [Uint32(m.revision.GetOr(0))], LineAtoms(m.lines));
    Joined(front + [Uint32(m.revision.GetOr(0))] + LineAtoms(m.lines), [Float(m.age)]);
  }

  /** Octets, then floats: the shape of most groups. */
  lemma OctetsThenFloats(octets: seq<int>, floats: seq<F>)
    requires octets != []
    ensures Sized(Octets(octets) + Floats(floats), |octets| + 4 * |floats|)
  {
    hide Payload, AllOk;
    OctetsAre(octets);
    FloatsAre(floats);
    Joined(Octets(octets), Floats(floats));
  }

  lemma AltitudeSized(a: Altitude)
    ensures Sized(AltitudeAtoms(a), 12)
  {
    hide Payload, AllOk;
    OctetsAre([a.referenceClass.GetOr(0), a.geoidModel.GetOr(0), 0, 0]);
    Pair(Float(a.sample), Uint32(a.originId.GetOr(0)));
    Joined(Octets([a.referenceClass.GetOr(0), a.geoidModel.GetOr(0), 0, 0]),
           [Float(a.sample), Uint32(a.originId.GetOr(0))]);
  }

  lemma PointerSized(p: Pointer)
    ensures Sized(PointerAtoms(p), 8)
  {
    hide Payload, AllOk;
    OctetsThenFloats([p.source.GetOr(0), p.reference.GetOr(255), if p.valid then 1 else 0, 0], [Else(p.bearing, ZERO)]);
  }

  lemma BearingsSized(b: Bearings)
    ensures Sized(BearingsAtoms(b), 20)
  {
    hide Payload, AllOk, PointerAtoms;
    PointerSized(b.first);
    PointerSized(b.second);
    FloatsAre([b.age]);
    Joined(PointerAtoms(b.first), PointerAtoms(b.second));
    Joined(PointerAtoms(b.first) + PointerAtoms(b.second), Floats([b.age]));
  }

  /** A group that is present has the length of its tag. */
  predicate GroupSized(g: Group, length: nat) {
    g.Present? ==> Sized(g.atoms, length)
  }

  lemma AttitudeSized(a: Attitude)
    ensures Sized(AttitudeAtoms(a), 32)
  {
    FloatsAre([Else(a.w, ONE), Else(a.x, ZERO), Else(a.y, ZERO), Else(a.z, ZERO),
               Else(a.rate0, ZERO), Else(a.rate1, ZERO), Else(a.rate2, ZERO), a.age]);
    hide Payload, AllOk, Floats;
  }

  lemma KinematicsSized(k: Kinematics)
    ensures Sized(KinematicsAtoms(k), 28)
  {
    FloatsAre([Else(k.north, ZERO), Else(k.east, ZERO), Else(k.down, ZERO),
               Else(k.vNorth, ZERO), Else(k.vEast, ZERO), Else(k.vDown, ZERO), k.age]);
    hide Payload, AllOk, Floats;
  }

  lemma AirSized(a: Air)
    ensures Sized(AirAtoms(a), 16)
  {
    FloatsAre([a.ias, a.baro, a.age, a.tas]);
    hide Payload, AllOk, Floats;
  }

  lemma WindSized(w: Wind)
    ensures Sized(WindAtoms(w), 12)
  {
    FloatsAre([Else(w.from, ZERO), Else(w.speed, ZERO), w.age]);
    hide Payload, AllOk, Floats;
  }

  lemma FlightGroupsSized(s: State)
    ensures var e := Entries(s);
      && GroupSized(e[0].group, 32) && GroupSized(e[1].group, 28) && GroupSized(e[2].group, 16)
      && GroupSized(e[3].group, 43)
  {
    hide Sized, AttitudeAtoms, KinematicsAtoms, AirAtoms, NavAtoms;
    if s.attitude.Some? {
      AttitudeSized(s.attitude.value);
    }
    if s.kinematics.Some? {
      KinematicsSized(s.kinematics.value);
    }
    if s.air.Some? {
      AirSized(s.air.value);
    }
    if s.nav.Some? {
      NavSized(s.nav.value);
    }
  }

  lemma SelectionGroupsSized(s: State)
    ensures var e := Entries(s);
      && GroupSized(e[4].group, 12) && GroupSized(e[5].group, 20) && GroupSized(e[6].group, 8)
  {
    hide Sized, WindAtoms, SelectionsAtoms, TrustAtoms, DeclaresTrust;
    if s.wind.Some? {
      WindSized(s.wind.value);
    }
    if s.selections.Some? {
      SelectionsSized(s.selections.value);
    }
    TrustSized(s);
  }

  lemma ReferenceGroupsSized(s: State)
    ensures var e := Entries(s);
      && GroupSized(e[7].group, 12) && GroupSized(e[8].group, 12) && GroupSized(e[9].group, 12)
      && GroupSized(e[10].group, 20) && GroupSized(e[11].group, 274)
  {
    hide Payload, AllOk, AltitudeAtoms, MonitorAtoms;
    if s.altitude.Some? {
      AltitudeSized(s.altitude.value);
    }
    if s.heading.Some? {
      OctetsThenFloats([s.heading.value.reference.GetOr(255), 0, 0, 0], [s.heading.value.rad, s.heading.value.age]);
    }
    if s.variation.Some? {
      OctetsThenFloats([s.variation.value.sourceId.GetOr(0), 0, 0, 0], [s.variation.value.east, s.variation.value.age]);
    }
    if s.dynamics.Some? {
      var d := s.dynamics.value;
      OctetsThenFloats([d.turnBasis.GetOr(255), 0, 0, 0], [d.turn, d.lateral, d.age, d.iasTrend]);
    }
    if s.monitorText.Some? {
      MonitorSized(s.monitorText.value);
    }
    hide Floats, Octets;
  }

  lemma EquipmentGroupsSized(s: State)
    ensures var e := Entries(s);
      && GroupSized(e[12].group, 16) && GroupSized(e[13].group, 20) && GroupSized(e[14].group, 24)
      && GroupSized(e[15].group, 12) && GroupSized(e[16].group, 20)
  {
    hide Payload, AllOk, BearingsAtoms, ApTargetsAtoms;
    if s.director.Some? {
      var d := s.director.value;
      OctetsThenFloats([d.mode.GetOr(255), d.engagement.GetOr(255), 0, 0], [d.pitch, d.roll, d.age]);
    }
    if s.bearings.Some? {
      BearingsSized(s.bearings.value);
    }
    if s.airframe.Some? {
      var a := s.airframe.value;
      FloatsAre([a.flap, a.flapSelected, a.elevatorTrim, a.aileronTrim, a.rudderTrim, a.age]);
    }
    if s.apModes.Some? {
      var m := s.apModes.value;
      OctetsThenFloats([m.engagement.GetOr(255), m.lateralActive.GetOr(255), m.lateralArmed.GetOr(255),
                        m.verticalActive.GetOr(255), m.verticalArmed.GetOr(255), 0, 0, 0], [m.age]);
    }
    if s.apTargets.Some? {
      ApTargetsSized(s.apTargets.value);
    }
    hide Floats, Octets;
  }

  /** Every present group has the fixed payload length of its tag. */
  lemma GroupsHaveFixedLengths(s: State)
    ensures forall i :: 0 <= i < 17 ==> GroupSized(Entries(s)[i].group, PayloadLength(i))
  {
    hide Entries, GroupSized;
    FlightGroupsSized(s);
    SelectionGroupsSized(s);
    ReferenceGroupsSized(s);
    EquipmentGroupsSized(s);
  }

  // ---- the state frame ------------------------------------------------------

  function StateBytes(s: State): seq<byte> {
    FrameBytes(Entries(s))
  }

  lemma EntriesAreOk(s: State)
    ensures forall i :: 0 <= i < 17 ==> EntryOk(Entries(s)[i])
    ensures TagsAscend(Entries(s))
  {
    GroupsHaveFixedLengths(s);
    hide Payload, Sized;
    forall i | 0 <= i < 17
      ensures EntryOk(Entries(s)[i])
    {
      SizedIsOk(Entries(s)[i], PayloadLength(i));
      hide *;
    }
    hide EntryOk, GroupSized;
  }

  lemma SizedIsOk(e: Entry, length: nat)
    requires GroupSized(e.group, length) && length < 0x1_0000
    ensures EntryOk(e)
  {
    hide Payload;
  }

  lemma OnlyTextIsRefused(s: State)
    ensures NoneOverlong(Entries(s)) <==> (s.monitorText.Some? ==> |s.monitorText.value.lines| <= TEXT_MAX_LINES)
  {
    assert !Entries(s)[11].group.Overlong? <==> (s.monitorText.Some? ==> |s.monitorText.value.lines| <= TEXT_MAX_LINES);
    hide AttitudeAtoms, KinematicsAtoms, AirAtoms, NavAtoms, WindAtoms, SelectionsAtoms, TrustAtoms, DeclaresTrust,
         AltitudeAtoms, HeadingAtoms, VariationAtoms, DynamicsAtoms, MonitorAtoms, DirectorAtoms, BearingsAtoms,
         AirframeAtoms, ApModesAtoms, ApTargetsAtoms;
  }

  /** For every state, a tag, length and value reading of the frame, whatever
      follows it, yields exactly the present groups in ascending tag order and
      stops exactly at its end. */
  lemma StateFrameReturns(s: State, rest: seq<byte>)
    ensures ParseFrame(StateBytes(s) + rest) == Some(Parsed(PresentGroups(Entries(s)), |StateBytes(s)|))
    ensures Ascending(PresentGroups(Entries(s)))
    ensures forall g :: g in PresentGroups(Entries(s)) <==> exists i :: 0 <= i < 17 && Wrote(Entries(s)[i], g)
  {
    EntriesAreOk(s);
    hide Entries, EntryOk;
    FrameReturns(Entries(s), rest);
    PresentAscend(Entries(s));
    forall g
      ensures g in PresentGroups(Entries(s)) <==> exists i :: 0 <= i < 17 && Wrote(Entries(s)[i], g)
    {
      PresentComesFrom(Entries(s), g);
    }
  }

  /** Frames are canonical: two states with the same octets have the same
      groups, and no frame is the beginning of another. */
  lemma FramesAreCanonical(s: State, t: State, rest: seq<byte>)
    requires StateBytes(s) == StateBytes(t) + rest
    ensures rest == [] && PresentGroups(Entries(s)) == PresentGroups(Entries(t))
  {
    StateFrameReturns(s, []);
    StateFrameReturns(t, rest);
    hide StateBytes, PresentGroups, ParseFrame, Ascending, Entries;
    assert StateBytes(s) + [] == StateBytes(s);
  }

  // ---- the largest frame ----------------------------------------------------

  /** Octets taken by the first `n` groups when all are present. */
  function FullLength(n: nat): nat
    requires n <= 17
  {
    if n == 0 then 0 else FullLength(n - 1) + 3 + PayloadLength(n - 1)
  }

  lemma {:induction false} PrefixLength(entries: seq<Entry>, n: nat)
    requires |entries| == 17 && n <= 17
    requires forall i :: 0 <= i < 17 ==> GroupSized(entries[i].group, PayloadLength(i))
    ensures var length := |GroupBytes(PresentGroups(entries[..n]))|;
      && length <= FullLength(n)
      && (length == FullLength(n) <==> forall i :: 0 <= i < n ==> entries[i].group.Present?)
    decreases n
  {
    hide PayloadLength, GroupSized, GroupBytes, PresentGroups;
    if n > 0 {
      PrefixLength(entries, n - 1);
      assert entries[..n][..n - 1] == entries[..n - 1] && entries[..n][n - 1] == entries[n - 1];
      GroupAdds(entries[..n], PayloadLength(n - 1));
    } else {
      NoGroups();
      assert entries[..0] == [];
    }
  }

  lemma GroupAdds(entries: seq<Entry>, length: nat)
    requires entries != [] && GroupSized(entries[|entries| - 1].group, length)
    ensures |GroupBytes(PresentGroups(entries))| == |GroupBytes(PresentGroups(entries[..|entries| - 1]))|
                                                    + (if entries[|entries| - 1].group.Present? then 3 + length else 0)
  {
    var front, e := entries[..|entries| - 1], entries[|entries| - 1];
    if e.group.Present? {
      GroupBytesOne(PresentGroups(front), Tlv(e.tag, Payload(e.group.atoms)));
    }
    hide GroupBytes, Payload, AllOk;
  }

  lemma FullLengthIs()
    ensures FullLength(17) == 632
  {
    assert FullLength(2) == 66;
    assert FullLength(4) == 131;
    assert FullLength(6) == 169;
    assert FullLength(8) == 195;
    assert FullLength(10) == 225;
    assert FullLength(12) == 525;
    assert FullLength(14) == 567;
    assert FullLength(16) == 609;
  }

  /** No frame is longer than 634 octets, and one is that long exactly when all
      seventeen groups are present. */
  lemma LongestFrame(s: State)
    ensures |StateBytes(s)| <= 634
    ensures |StateBytes(s)| == 634 <==> forall i :: 0 <= i < 17 ==> Entries(s)[i].group.Present?
  {
    hide Entries, PresentGroups, GroupBytes, GroupSized;
    GroupsHaveFixedLengths(s);
    PrefixLength(Entries(s), 17);
    assert Entries(s)[..17] == Entries(s);
    FullLengthIs();
  }

  const UNSET := Pointer(None, None, false, None)

  const PROBE := State(
    Some(Attitude(Some(ONE), Some(ZERO), Some(ZERO), Some(ZERO), Some(ZERO), Some(ZERO), Some(ZERO), Some(ZERO))),
    Some(Kinematics(Some(ZERO), Some(ZERO), Some(ZERO), Some(ZERO), Some(ZERO), Some(ZERO), Some(ZERO))),
    Some(Air(None, None, Some(ZERO), None)),
    Some(Nav(None, None, None, None, None, None, None, Some(ZERO), Absent, Absent, None)),
    Some(Wind(None, None, Some(ZERO))),
    Some(Selections(None, None, None, None, None, None, None)),
    Some(0), Valid(false, false, false, false, false, false, false, false, false, false), None, None,
    Some(Altitude(None, None, None, None)),
    Some(Heading(None, None, Some(ZERO))),
    Some(Variation(None, None, Some(ZERO))),
    Some(Dynamics(None, None, None, Some(ZERO), None)),
    Some(MonitorText([], Some(0), Some(ZERO))),
    Some(Director(None, None, None, None, Some(ZERO))),
    Some(Bearings(UNSET, UNSET, Some(ZERO))),
    Some(Airframe(None, None, None, None, None, Some(ZERO))),
    Some(ApModes(None, None, None, None, None, Some(ZERO))),
    Some(ApTargets(None, None, None, None, None, None)))

  lemma ProbeIsFull()
    ensures forall i :: 0 <= i < 17 ==> Entries(PROBE)[i].group.Present?
  {
    hide AttitudeAtoms, KinematicsAtoms, AirAtoms, NavAtoms, WindAtoms, SelectionsAtoms, TrustAtoms, AltitudeAtoms,
         HeadingAtoms, VariationAtoms, DynamicsAtoms, MonitorAtoms, DirectorAtoms, BearingsAtoms, AirframeAtoms,
         ApModesAtoms, ApTargetsAtoms;
  }

  // ---- trust ----------------------------------------------------------------

  /** A trust group that is left out would have said nothing: unknown quality, no
      flag, no snapshot. A group that says nothing is left out if and only if no
      declared value wrapped round its field. */
  lemma TrustIsOmittedExactlyWhenDefault(s: State)
    ensures !DeclaresTrust(s) ==> Payload(TrustAtoms(s)) == [255, 0, 0, 0, 0, 0, 0, 0]
    ensures Payload(TrustAtoms(s)) == [255, 0, 0, 0, 0, 0, 0, 0] ==>
      (DeclaresTrust(s) <==> s.quality.GetOr(255) != 255 || s.coherence.GetOr(0) != 0 || s.generation.GetOr(0) != 0)
    ensures Payload(TrustAtoms(s)) == [255, 0, 0, 0, 0, 0, 0, 0] <==>
      && s.quality.GetOr(255) % 0x100 == 255 && s.coherence.GetOr(0) % 0x100 == 0
      && s.generation.GetOr(0) % 0x1_0000_0000 == 0
      && Flags(s.valid) == 0
  {
    var q, c, g, f := s.quality.GetOr(255), s.coherence.GetOr(0), s.generation.GetOr(0), Flags(s.valid);
    assert TrustAtoms(s) == [Octet(q), Octet(c), Uint16(f), Uint32(g)];
    assert !DeclaresTrust(s) <==> q == 255 && c == 0 && f == 0 && g == 0;
    assert f < 0x1_0000;
    hide *;
    TrustPayload(q, c, f, g);
  }

  /** A quality of 511 is stored as 255 and still declared. */
  lemma WrappedQualityIsDeclared(s: State)
    requires s.quality == Some(511) && s.coherence.GetOr(0) == 0 && s.generation.GetOr(0) == 0 && Flags(s.valid) == 0
    ensures DeclaresTrust(s) && Payload(TrustAtoms(s)) == [255, 0, 0, 0, 0, 0, 0, 0]
  {
    TrustIsOmittedExactlyWhenDefault(s);
    hide Payload, TrustAtoms;
  }

  lemma TrustPayload(q: int, c: int, f: nat, g: int)
    requires f < 0x1_0000
    ensures Payload([Octet(q), Octet(c), Uint16(f), Uint32(g)]) == [255, 0, 0, 0, 0, 0, 0, 0]
            <==> q % 0x100 == 255 && c % 0x100 == 0 && f == 0 && g % 0x1_0000_0000 == 0
  {
    FourAtoms(Octet(q), Octet(c), Uint16(f), Uint32(g));
    hide Payload, LittleEndian, Zeros, Power;
    Powers();
    LittleEndianIsZero(f, 2);
    LittleEndianIsZero(g % 0x1_0000_0000, 4);
    TwoZeros();
    SaysNothing(q % 0x100, c % 0x100, LittleEndian(f, 2), LittleEndian(g % 0x1_0000_0000, 4));
  }

  lemma TwoZeros()
    ensures Zeros(2) == [0, 0] && Zeros(4) == [0, 0, 0, 0]
  {
  }

  lemma SaysNothing(q: byte, c: byte, flags: seq<byte>, generation: seq<byte>)
    requires |flags| == 2 && |generation| == 4
    ensures [q] + [c] + flags + generation == [255, 0, 0, 0, 0, 0, 0, 0]
            <==> q == 255 && c == 0 && flags == [0, 0] && generation == [0, 0, 0, 0]
  {
    var p := [q] + [c] + flags + generation;
    assert p[0] == q && p[1] == c;
    assert p[2] == flags[0] && p[3] == flags[1];
    assert p[4] == generation[0] && p[5] == generation[1] && p[6] == generation[2] && p[7] == generation[3];
  }

  lemma FourAtoms(a: Atom, b: Atom, c: Atom, d: Atom)
    ensures Payload([a, b, c, d]) == AtomBytes(a) + AtomBytes(b) + AtomBytes(c) + AtomBytes(d)
  {
    assert [a, b, c, d] == [] + [a] + [b] + [c] + [d];
    PayloadOne([], a);
    PayloadOne([a], b);
    PayloadOne([a, b], c);
    PayloadOne([a, b, c], d);
    assert [] + [a] == [a] && [a] + [b] == [a, b] && [a, b] + [c] == [a, b, c] && [a, b, c] + [d] == [a, b, c, d];
    assert Payload([]) == [];
    hide AtomBytes, Payload;
    assert [] + AtomBytes(a) == AtomBytes(a);
  }

  lemma {:induction false} LittleEndianIsZero(value: nat, width: nat)
    requires value < Power(width)
    ensures LittleEndian(value, width) == Zeros(width) <==> value == 0
    decreases width
  {
    if width > 0 {
      LittleEndianIsZero(value / 256, width - 1);
      assert Zeros(width)[1..] == Zeros(width - 1) && Zeros(width) == [0] + Zeros(width - 1);
    }
  }

  lemma Powers()
    ensures Power(2) == 0x1_0000 && Power(4) == 0x1_0000_0000
  {
    assert Power(1) == 256 && Power(3) == 0x100_0000;
  }

  function Power(width: nat): nat {
    if width == 0 then 1 else 256 * Power(width - 1)
  }
}
