/** The group encoders, each storing its fields in place at explicit offsets, and
    the frame they make: clients/web/state-abi.js and
    clients/web/state-abi-equipment.js. A store past the end of the buffer
    throws; the stores after it do not happen. */
module StateEncoders {
  import opened Wrappers
  import opened Bytes
  import opened StateFrame
  import opened StateAbi

  // ---- flight-state groups --------------------------------------------------

  method PutAttitude(view: array<byte>, off: nat, a: Attitude) returns (thrown: bool, length: nat)
    modifies view
    ensures Encoding(old(view[..]), view[..], off, AttitudeAtoms(a), thrown) && length == 32
  {
    hide Encoding, Payload, Else;
    ghost var was, done: seq<Atom> := view[..], [];
    thrown := false;
    EncodingStarts(was, off);
    thrown, done := Put(view, off, 0, Float(Else(a.w, ONE)), thrown, was, done);
    thrown, done := Put(view, off, 4, Float(Else(a.x, ZERO)), thrown, was, done);
    thrown, done := Put(view, off, 8, Float(Else(a.y, ZERO)), thrown, was, done);
    thrown, done := Put(view, off, 12, Float(Else(a.z, ZERO)), thrown, was, done);
    thrown, done := Put(view, off, 16, Float(Else(a.rate0, ZERO)), thrown, was, done);
    thrown, done := Put(view, off, 20, Float(Else(a.rate1, ZERO)), thrown, was, done);
    thrown, done := Put(view, off, 24, Float(Else(a.rate2, ZERO)), thrown, was, done);
    thrown, done := Put(view, off, 28, Float(a.age), thrown, was, done);
    assert done == AttitudeAtoms(a);
    return thrown, 32;
  }

  method PutKinematics(view: array<byte>, off: nat, k: Kinematics) returns (thrown: bool, length: nat)
    modifies view
    ensures Encoding(old(view[..]), view[..], off, KinematicsAtoms(k), thrown) && length == 28
  {
    hide Encoding, Payload, Else;
    ghost var was, done: seq<Atom> := view[..], [];
    thrown := false;
    EncodingStarts(was, off);
    thrown, done := Put(view, off, 0, Float(Else(k.north, ZERO)), thrown, was, done);
    thrown, done := Put(view, off, 4, Float(Else(k.east, ZERO)), thrown, was, done);
    thrown, done := Put(view, off, 8, Float(Else(k.down, ZERO)), thrown, was, done);
    thrown, done := Put(view, off, 12, Float(Else(k.vNorth, ZERO)), thrown, was, done);
    thrown, done := Put(view, off, 16, Float(Else(k.vEast, ZERO)), thrown, was, done);
    thrown, done := Put(view, off, 20, Float(Else(k.vDown, ZERO)), thrown, was, done);
    thrown, done := Put(view, off, 24, Float(k.age), thrown, was, done);
    assert done == KinematicsAtoms(k);
    return thrown, 28;
  }

  method PutAir(view: array<byte>, off: nat, a: Air) returns (thrown: bool, length: nat)
    modifies view
    ensures Encoding(old(view[..]), view[..], off, AirAtoms(a), thrown) && length == 16
  {
    hide Encoding, Payload, Else;
    ghost var was, done: seq<Atom> := view[..], [];
    thrown := false;
    EncodingStarts(was, off);
    thrown, done := Put(view, off, 0, Float(a.ias), thrown, was, done);
    thrown, done := Put(view, off, 4, Float(a.baro), thrown, was, done);
    thrown, done := Put(view, off, 8, Float(a.age), thrown, was, done);
    thrown, done := Put(view, off, 12, Float(a.tas), thrown, was, done);
    assert done == AirAtoms(a);
    return thrown, 16;
  }

  method PutNav(view: array<byte>, off: nat, n: Nav) returns (thrown: bool, length: nat)
    modifies view
    ensures Encoding(old(view[..]), view[..], off, NavAtoms(n), thrown) && length == 43
  {
    hide Encoding, Payload, Else;
    ghost var was, done: seq<Atom> := view[..], [];
    thrown := false;
    EncodingStarts(was, off);
    thrown, done := Put(view, off, 0, Octet(n.source.GetOr(0)), thrown, was, done);
    thrown, done := Put(view, off, 1, Octet(n.fromto.GetOr(0)), thrown, was, done);
    thrown, done := Put(view, off, 2, Octet(n.courseReference.GetOr(255)), thrown, was, done);
    thrown, done := Put(view, off, 3, Octet(0), thrown, was, done);
    ghost var octets := [n.source.GetOr(0), n.fromto.GetOr(0), n.courseReference.GetOr(255), 0];
    assert done == Octets(octets);
    hide Octets;
    thrown, done := Put(view, off, 4, Float(Else(n.course, ZERO)), thrown, was, done);
    thrown, done := Put(view, off, 8, Float(Else(n.cdi, ZERO)), thrown, was, done);
    thrown, done := Put(view, off, 12, Float(n.vdev), thrown, was, done);
    thrown, done := Put(view, off, 16, Float(n.dist), thrown, was, done);
    thrown, done := Put(view, off, 20, Float(n.age), thrown, was, done);
    ghost var floats := [Else(n.course, ZERO), Else(n.cdi, ZERO), n.vdev, n.dist, n.age];
    assert done == Octets(octets) + Floats(floats);
    hide Floats;
    thrown, done := Put(view, off, 24, TextAtom(n.toIdent, IDENT_CAPACITY, Ident), thrown, was, done);
    thrown, done := Put(view, off, 33, TextAtom(n.fromIdent, IDENT_CAPACITY, Ident), thrown, was, done);
    thrown, done := Put(view, off, 42, Octet(n.scale.GetOr(255)), thrown, was, done);
    assert done == NavAtoms(n);
    return thrown, 43;
  }

  method PutWind(view: array<byte>, off: nat, w: Wind) returns (thrown: bool, length: nat)
    modifies view
    ensures Encoding(old(view[..]), view[..], off, WindAtoms(w), thrown) && length == 12
  {
    hide Encoding, Payload, Else;
    ghost var was, done: seq<Atom> := view[..], [];
    thrown := false;
    EncodingStarts(was, off);
    thrown, done := Put(view, off, 0, Float(Else(w.from, ZERO)), thrown, was, done);
    thrown, done := Put(view, off, 4, Float(Else(w.speed, ZERO)), thrown, was, done);
    thrown, done := Put(view, off, 8, Float(w.age), thrown, was, done);
    assert done == WindAtoms(w);
    return thrown, 12;
  }

  method PutSelections(view: array<byte>, off: nat, s: Selections) returns (thrown: bool, length: nat)
    modifies view
    ensures Encoding(old(view[..]), view[..], off, SelectionsAtoms(s), thrown) && length == 20
  {
    hide Encoding, Payload, Else;
    ghost var was, done: seq<Atom> := view[..], [];
    thrown := false;
    EncodingStarts(was, off);
    thrown, done := Put(view, off, 0, Float(Else(s.bug, ZERO)), thrown, was, done);
    thrown, done := Put(view, off, 4, Octet(s.bugReference.GetOr(255)), thrown, was, done);
    thrown, done := Put(view, off, 5, Octet(s.altClass.GetOr(0)), thrown, was, done);
    thrown, done := Put(view, off, 6, Octet(s.altModel.GetOr(0)), thrown, was, done);
    thrown, done := Put(view, off, 7, Octet(0), thrown, was, done);
    ghost var octets := [s.bugReference.GetOr(255), s.altClass.GetOr(0), s.altModel.GetOr(0), 0];
    assert done == Floats([Else(s.bug, ZERO)]) + Octets(octets);
    hide Octets, Floats;
    thrown, done := Put(view, off, 8, Float(s.alt), thrown, was, done);
    thrown, done := Put(view, off, 12, Uint32(s.originId.GetOr(0)), thrown, was, done);
    thrown, done := Put(view, off, 16, Float(s.baro), thrown, was, done);
    assert done == SelectionsAtoms(s);
    return thrown, 20;
  }

  method PutTrust(view: array<byte>, off: nat, s: State) returns (thrown: bool, length: nat)
    modifies view
    ensures Encoding(old(view[..]), view[..], off, TrustAtoms(s), thrown) && length == 8
  {
    hide Encoding, Payload, Else;
    ghost var was, done: seq<Atom> := view[..], [];
    thrown := false;
    EncodingStarts(was, off);
    thrown, done := Put(view, off, 0, Octet(s.quality.GetOr(255)), thrown, was, done);
    thrown, done := Put(view, off, 1, Octet(s.coherence.GetOr(0)), thrown, was, done);
    thrown, done := Put(view, off, 2, Uint16(Flags(s.valid)), thrown, was, done);
    thrown, done := Put(view, off, 4, Uint32(s.generation.GetOr(0)), thrown, was, done);
    assert done == TrustAtoms(s);
    return thrown, 8;
  }

  method PutAltitude(view: array<byte>, off: nat, a: Altitude) returns (thrown: bool, length: nat)
    modifies view
    ensures Encoding(old(view[..]), view[..], off, AltitudeAtoms(a), thrown) && length == 12
  {
    hide Encoding, Payload, Else;
    ghost var was, done: seq<Atom> := view[..], [];
    thrown := false;
    EncodingStarts(was, off);
    thrown, done := Put(view, off, 0, Octet(a.referenceClass.GetOr(0)), thrown, was, done);
    thrown, done := Put(view, off, 1, Octet(a.geoidModel.GetOr(0)), thrown, was, done);
    thrown, done := Put(view, off, 2, Octet(0), thrown, was, done);
    thrown, done := Put(view, off, 3, Octet(0), thrown, was, done);
    thrown, done := Put(view, off, 4, Float(a.sample), thrown, was, done);
    thrown, done := Put(view, off, 8, Uint32(a.originId.GetOr(0)), thrown, was, done);
    assert done == AltitudeAtoms(a);
    return thrown, 12;
  }

  method PutHeading(view: array<byte>, off: nat, h: Heading) returns (thrown: bool, length: nat)
    modifies view
    ensures Encoding(old(view[..]), view[..], off, HeadingAtoms(h), thrown) && length == 12
  {
    hide Encoding, Payload, Else;
    ghost var was, done: seq<Atom> := view[..], [];
    thrown := false;
    EncodingStarts(was, off);
    thrown, done := Put(view, off, 0, Octet(h.reference.GetOr(255)), thrown, was, done);
    thrown, done := Put(view, off, 1, Octet(0), thrown, was, done);
    thrown, done := Put(view, off, 2, Octet(0), thrown, was, done);
    thrown, done := Put(view, off, 3, Octet(0), thrown, was, done);
    thrown, done := Put(view, off, 4, Float(h.rad), thrown, was, done);
    thrown, done := Put(view, off, 8, Float(h.age), thrown, was, done);
    assert done == HeadingAtoms(h);
    return thrown, 12;
  }

  method PutVariation(view: array<byte>, off: nat, v: Variation) returns (thrown: bool, length: nat)
    modifies view
    ensures Encoding(old(view[..]), view[..], off, VariationAtoms(v), thrown) && length == 12
  {
    hide Encoding, Payload, Else;
    ghost var was, done: seq<Atom> := view[..], [];
    thrown := false;
    EncodingStarts(was, off);
    thrown, done := Put(view, off, 0, Octet(v.sourceId.GetOr(0)), thrown, was, done);
    thrown, done := Put(view, off, 1, Octet(0), thrown, was, done);
    thrown, done := Put(view, off, 2, Octet(0), thrown, was, done);
    thrown, done := Put(view, off, 3, Octet(0), thrown, was, done);
    thrown, done := Put(view, off, 4, Float(v.east), thrown, was, done);
    thrown, done := Put(view, off, 8, Float(v.age), thrown, was, done);
    assert done == VariationAtoms(v);
    return thrown, 12;
  }

  method PutDynamics(view: array<byte>, off: nat, d: Dynamics) returns (thrown: bool, length: nat)
    modifies view
    ensures Encoding(old(view[..]), view[..], off, DynamicsAtoms(d), thrown) && length == 20
  {
    hide Encoding, Payload, Else;
    ghost var was, done: seq<Atom> := view[..], [];
    thrown := false;
    EncodingStarts(was, off);
    thrown, done := Put(view, off, 0, Octet(d.turnBasis.GetOr(255)), thrown, was, done);
    thrown, done := Put(view, off, 1, Octet(0), thrown, was, done);
    thrown, done := Put(view, off, 2, Octet(0), thrown, was, done);
    thrown, done := Put(view, off, 3, Octet(0), thrown, was, done);
    thrown, done := Put(view, off, 4, Float(d.turn), thrown, was, done);
    thrown, done := Put(view, off, 8, Float(d.lateral), thrown, was, done);
    thrown, done := Put(view, off, 12, Float(d.age), thrown, was, done);
    thrown, done := Put(view, off, 16, Float(d.iasTrend), thrown, was, done);
    assert done == DynamicsAtoms(d);
    return thrown, 20;
  }

  method PutMonitor(view: array<byte>, off: nat, m: MonitorText) returns (thrown: bool, length: nat)
    modifies view
    ensures |m.lines| > TEXT_MAX_LINES ==> thrown && view[..] == old(view[..])
    ensures |m.lines| <= TEXT_MAX_LINES ==>
      Encoding(old(view[..]), view[..], off, MonitorAtoms(m), thrown) && length == 274
  {
    hide Encoding, Payload, LineAtom;
    if |m.lines| > TEXT_MAX_LINES {
      return true, 0;
    }
    ghost var was, done: seq<Atom> := view[..], [];
    thrown := false;
    EncodingStarts(was, off);
    thrown, done := Put(view, off, 0, Octet(|m.lines|), thrown, was, done);
    thrown, done := Put(view, off, 1, Octet(0), thrown, was, done);
    thrown, done := Put(view, off, 2, Uint32(m.revision.GetOr(0)), thrown, was, done);
    assert done == Octets([|m.lines|, 0]) + [Uint32(m.revision.GetOr(0))];
    ghost var front := done;
    for i := 0 to TEXT_MAX_LINES
      invariant Encoding(was, view[..], off, done, thrown)
      invariant done == front + LineAtoms(m.lines)[..i] && |Payload(done)| == 6 + i * 33
    {
      SlotIs(m.lines, i);
      thrown, done := Put(view, off, 6 + i * 33, LineAtom(m.lines, i), thrown, was, done);
      assert front + LineAtoms(m.lines)[..i] + [LineAtom(m.lines, i)] == front + LineAtoms(m.lines)[..i + 1];
    }
    thrown, done := Put(view, off, 270, Float(m.age), thrown, was, done);
    assert done == MonitorAtoms(m);
    return thrown, 274;
  }

  lemma SlotIs(lines: seq<Text>, i: nat)
    requires i < TEXT_MAX_LINES
    ensures AtomOk(LineAtom(lines, i)) && |AtomBytes(LineAtom(lines, i))| == 33
  {
  }

  // ---- equipment groups -----------------------------------------------------

  method PutDirector(view: array<byte>, off: nat, d: Director) returns (thrown: bool, length: nat)
    modifies view
    ensures Encoding(old(view[..]), view[..], off, DirectorAtoms(d), thrown) && length == 16
  {
    hide Encoding, Payload, Else;
    ghost var was, done: seq<Atom> := view[..], [];
    thrown := false;
    EncodingStarts(was, off);
    thrown, done := Put(view, off, 0, Octet(d.mode.GetOr(255)), thrown, was, done);
    thrown, done := Put(view, off, 1, Octet(d.engagement.GetOr(255)), thrown, was, done);
    thrown, done := Put(view, off, 2, Octet(0), thrown, was, done);
    thrown, done := Put(view, off, 3, Octet(0), thrown, was, done);
    thrown, done := Put(view, off, 4, Float(d.pitch), thrown, was, done);
    thrown, done := Put(view, off, 8, Float(d.roll), thrown, was, done);
    thrown, done := Put(view, off, 12, Float(d.age), thrown, was, done);
    assert done == DirectorAtoms(d);
    return thrown, 16;
  }

  method PutPointer(view: array<byte>, off: nat, rel: nat, p: Pointer, threw: bool, ghost was: seq<byte>,
                    ghost before: seq<Atom>)
    returns (thrown: bool, ghost done: seq<Atom>)
    requires rel == |Payload(before)| && Encoding(was, view[..], off, before, threw)
    modifies view
    ensures done == before + PointerAtoms(p) && |Payload(done)| == rel + 8
    ensures Encoding(was, view[..], off, done, thrown)
  {
    hide Encoding, Payload, Else;
    done := before;
    thrown := threw;
    thrown, done := Put(view, off, rel, Octet(p.source.GetOr(0)), thrown, was, done);
    thrown, done := Put(view, off, rel + 1, Octet(p.reference.GetOr(255)), thrown, was, done);
    thrown, done := Put(view, off, rel + 2, Octet(if p.valid then 1 else 0), thrown, was, done);
    thrown, done := Put(view, off, rel + 3, Octet(0), thrown, was, done);
    thrown, done := Put(view, off, rel + 4, Float(Else(p.bearing, ZERO)), thrown, was, done);
    assert done == before + PointerAtoms(p);
  }

  method PutBearings(view: array<byte>, off: nat, b: Bearings) returns (thrown: bool, length: nat)
    modifies view
    ensures Encoding(old(view[..]), view[..], off, BearingsAtoms(b), thrown) && length == 20
  {
    hide Encoding, Payload, PointerAtoms;
    ghost var was, done: seq<Atom> := view[..], [];
    EncodingStarts(was, off);
    thrown, done := PutPointer(view, off, 0, b.first, false, was, done);
    thrown, done := PutPointer(view, off, 8, b.second, thrown, was, done);
    thrown, done := Put(view, off, 16, Float(b.age), thrown, was, done);
    assert done == BearingsAtoms(b);
    return thrown, 20;
  }

  method PutAirframe(view: array<byte>, off: nat, a: Airframe) returns (thrown: bool, length: nat)
    modifies view
    ensures Encoding(old(view[..]), view[..], off, AirframeAtoms(a), thrown) && length == 24
  {
    hide Encoding, Payload, Else;
    ghost var was, done: seq<Atom> := view[..], [];
    thrown := false;
    EncodingStarts(was, off);
    thrown, done := Put(view, off, 0, Float(a.flap), thrown, was, done);
    thrown, done := Put(view, off, 4, Float(a.flapSelected), thrown, was, done);
    thrown, done := Put(view, off, 8, Float(a.elevatorTrim), thrown, was, done);
    thrown, done := Put(view, off, 12, Float(a.aileronTrim), thrown, was, done);
    thrown, done := Put(view, off, 16, Float(a.rudderTrim), thrown, was, done);
    thrown, done := Put(view, off, 20, Float(a.age), thrown, was, done);
    assert done == AirframeAtoms(a);
    return thrown, 24;
  }

  method PutApModes(view: array<byte>, off: nat, m: ApModes) returns (thrown: bool, length: nat)
    modifies view
    ensures Encoding(old(view[..]), view[..], off, ApModesAtoms(m), thrown) && length == 12
  {
    hide Encoding, Payload, Else;
    ghost var was, done: seq<Atom> := view[..], [];
    thrown := false;
    EncodingStarts(was, off);
    thrown, done := Put(view, off, 0, Octet(m.engagement.GetOr(255)), thrown, was, done);
    thrown, done := Put(view, off, 1, Octet(m.lateralActive.GetOr(255)), thrown, was, done);
    thrown, done := Put(view, off, 2, Octet(m.lateralArmed.GetOr(255)), thrown, was, done);
    thrown, done := Put(view, off, 3, Octet(m.verticalActive.GetOr(255)), thrown, was, done);
    thrown, done := Put(view, off, 4, Octet(m.verticalArmed.GetOr(255)), thrown, was, done);
    thrown, done := Put(view, off, 5, Octet(0), thrown, was, done);
    thrown, done := Put(view, off, 6, Octet(0), thrown, was, done);
    thrown, done := Put(view, off, 7, Octet(0), thrown, was, done);
    ghost var octets := [m.engagement.GetOr(255), m.lateralActive.GetOr(255), m.lateralArmed.GetOr(255),
                         m.verticalActive.GetOr(255), m.verticalArmed.GetOr(255), 0, 0, 0];
    assert done == Octets(octets);
    hide Octets;
    thrown, done := Put(view, off, 8, Float(m.age), thrown, was, done);
    assert done == ApModesAtoms(m);
    return thrown, 12;
  }

  method PutApTargets(view: array<byte>, off: nat, t: ApTargets) returns (thrown: bool, length: nat)
    modifies view
    ensures Encoding(old(view[..]), view[..], off, ApTargetsAtoms(t), thrown) && length == 20
  {
    hide Encoding, Payload, Else;
    ghost var was, done: seq<Atom> := view[..], [];
    thrown := false;
    EncodingStarts(was, off);
    thrown, done := Put(view, off, 0, Float(t.airspeed), thrown, was, done);
    thrown, done := Put(view, off, 4, Octet(t.altClass.GetOr(0)), thrown, was, done);
    thrown, done := Put(view, off, 5, Octet(t.altModel.GetOr(0)), thrown, was, done);
    thrown, done := Put(view, off, 6, Octet(0), thrown, was, done);
    thrown, done := Put(view, off, 7, Octet(0), thrown, was, done);
    ghost var octets := [t.altClass.GetOr(0), t.altModel.GetOr(0), 0, 0];
    assert done == Floats([t.airspeed]) + Octets(octets);
    hide Octets, Floats;
    thrown, done := Put(view, off, 8, Float(t.alt), thrown, was, done);
    thrown, done := Put(view, off, 12, Uint32(t.originId.GetOr(0)), thrown, was, done);
    thrown, done := Put(view, off, 16, Float(t.verticalSpeed), thrown, was, done);
    assert done == ApTargetsAtoms(t);
    return thrown, 20;
  }

  // ---- the table ------------------------------------------------------------

  /** What the table's entry `i` did: nothing when its group is absent, and for
      text with too many lines nothing but throwing. */
  ghost predicate Encoded(e: Entry, was: seq<byte>, now: seq<byte>, off: nat, present: bool, thrown: bool) {
    match e.group
    case Missing => !present && !thrown && now == was
    case Overlong => present && thrown && now == was
    case Present(atoms) => present && Encoding(was, now, off, atoms, thrown)
  }

  method EncodeFlightGroup(view: array<byte>, off: nat, s: State, i: nat)
    returns (present: bool, thrown: bool, length: nat)
    requires i < 12
    modifies view
    ensures Encoded(Entries(s)[i], old(view[..]), view[..], off, present, thrown)
    ensures present && !thrown ==> length == PayloadLength(i)
  {
    hide Encoding, AttitudeAtoms, KinematicsAtoms, AirAtoms, NavAtoms, WindAtoms, SelectionsAtoms, TrustAtoms,
         DeclaresTrust, AltitudeAtoms, HeadingAtoms, VariationAtoms, DynamicsAtoms, MonitorAtoms, DirectorAtoms,
         BearingsAtoms, AirframeAtoms, ApModesAtoms, ApTargetsAtoms;
    if i == 0 {
      if s.attitude.Some? {
        thrown, length := PutAttitude(view, off, s.attitude.value);
        return true, thrown, length;
      }
    } else if i == 1 {
      if s.kinematics.Some? {
        thrown, length := PutKinematics(view, off, s.kinematics.value);
        return true, thrown, length;
      }
    } else if i == 2 {
      if s.air.Some? {
        thrown, length := PutAir(view, off, s.air.value);
        return true, thrown, length;
      }
    } else if i == 3 {
      if s.nav.Some? {
        thrown, length := PutNav(view, off, s.nav.value);
        return true, thrown, length;
      }
    } else if i == 4 {
      if s.wind.Some? {
        thrown, length := PutWind(view, off, s.wind.value);
        return true, thrown, length;
      }
    } else if i == 5 {
      if s.selections.Some? {
        thrown, length := PutSelections(view, off, s.selections.value);
        return true, thrown, length;
      }
    } else if i == 6 {
      if DeclaresTrust(s) {
        thrown, length := PutTrust(view, off, s);
        return true, thrown, length;
      }
    } else if i == 7 {
      if s.altitude.Some? {
        thrown, length := PutAltitude(view, off, s.altitude.value);
        return true, thrown, length;
      }
    } else if i == 8 {
      if s.heading.Some? {
        thrown, length := PutHeading(view, off, s.heading.value);
        return true, thrown, length;
      }
    } else if i == 9 {
      if s.variation.Some? {
        thrown, length := PutVariation(view, off, s.variation.value);
        return true, thrown, length;
      }
    } else if i == 10 {
      if s.dynamics.Some? {
        thrown, length := PutDynamics(view, off, s.dynamics.value);
        return true, thrown, length;
      }
    } else {
      if s.monitorText.Some? {
        thrown, length := PutMonitor(view, off, s.monitorText.value);
        return true, thrown, length;
      }
    }
    return false, false, 0;
  }

  method EncodeEquipmentGroup(view: array<byte>, off: nat, s: State, i: nat)
    returns (present: bool, thrown: bool, length: nat)
    requires 12 <= i < 17
    modifies view
    ensures Encoded(Entries(s)[i], old(view[..]), view[..], off, present, thrown)
    ensures present && !thrown ==> length == PayloadLength(i)
  {
    hide Encoding, AttitudeAtoms, KinematicsAtoms, AirAtoms, NavAtoms, WindAtoms, SelectionsAtoms, TrustAtoms,
         DeclaresTrust, AltitudeAtoms, HeadingAtoms, VariationAtoms, DynamicsAtoms, MonitorAtoms, DirectorAtoms,
         BearingsAtoms, AirframeAtoms, ApModesAtoms, ApTargetsAtoms;
    if i == 12 {
      if s.director.Some? {
        thrown, length := PutDirector(view, off, s.director.value);
        return true, thrown, length;
      }
    } else if i == 13 {
      if s.bearings.Some? {
        thrown, length := PutBearings(view, off, s.bearings.value);
        return true, thrown, length;
      }
    } else if i == 14 {
      if s.airframe.Some? {
        thrown, length := PutAirframe(view, off, s.airframe.value);
        return true, thrown, length;
      }
    } else if i == 15 {
      if s.apModes.Some? {
        thrown, length := PutApModes(view, off, s.apModes.value);
        return true, thrown, length;
      }
    } else {
      if s.apTargets.Some? {
        thrown, length := PutApTargets(view, off, s.apTargets.value);
        return true, thrown, length;
      }
    }
    return false, false, 0;
  }

  /** One turn of the table: the payload first, then its tag and length. */
  method PutEntry(view: array<byte>, off: nat, s: State, i: nat) returns (present: bool, thrown: bool, length: nat)
    requires i < 17
    modifies view
    ensures Entries(s)[i].group.Missing? ==> !present && !thrown && view[..] == old(view[..])
    ensures Entries(s)[i].group.Overlong? ==> thrown
    ensures Entries(s)[i].group.Present? ==>
      var g := Tlv(Entries(s)[i].tag, Payload(Entries(s)[i].group.atoms));
      && present && (thrown <==> off + |TlvBytes(g)| > view.Length)
      && (!thrown ==> 3 + length == |TlvBytes(g)| && view[..] == Splice(old(view[..]), off, TlvBytes(g)))
    ensures SameBefore(old(view[..]), view[..], off)
  {
    GroupsHaveFixedLengths(s);
    TagIs(s, i);
    hide Entries, Payload, AllOk, PayloadLength, TlvBytes, Encoding;
    ghost var was, e := view[..], Entries(s)[i];
    SameBeforeItself(was, off);
    if i < 12 {
      present, thrown, length := EncodeFlightGroup(view, off + 3, s, i);
    } else {
      present, thrown, length := EncodeEquipmentGroup(view, off + 3, s, i);
    }
    if e.group.Present? {
      EncodingMeans(was, view[..], off + 3, e.group.atoms, thrown);
      AlsoSameBefore(was, was, view[..], off, off + 3);
    }
    hide Splice, SameBefore;
    if thrown || !present {
      return;
    }
    var _ := Store(view, off, [TagOf(i)]);
    var _ := Store(view, off + 1, LittleEndian(length % 0x1_0000, 2));
    TlvStored(was, off, e.tag, Payload(e.group.atoms));
    SpliceKeeps(was, off, TlvBytes(Tlv(e.tag, Payload(e.group.atoms))), off);
  }

  lemma EncodingMeans(was: seq<byte>, now: seq<byte>, off: nat, atoms: seq<Atom>, thrown: bool)
    requires Encoding(was, now, off, atoms, thrown) && atoms != []
    ensures thrown <==> off + |Payload(atoms)| > |was|
    ensures !thrown ==> now == Splice(was, off, Payload(atoms))
    ensures SameBefore(was, now, off)
  {
  }

  // ---- the state frame ------------------------------------------------------

  /** A buffer of any length and content: the frame is written whole and the rest
      left alone, or, when it does not fit or has too many text lines, the buffer
      is left with the header of the empty frame. The count byte stays zero until
      the end. */
  method EncodeState(view: array<byte>, s: State) returns (ok: bool, used: nat)
    modifies view
    ensures ok <==>
      && |StateBytes(s)| <= view.Length
      && (s.monitorText.Some? ==> |s.monitorText.value.lines| <= TEXT_MAX_LINES)
    ensures ok ==> used == |StateBytes(s)| && view[..] == Splice(old(view[..]), 0, StateBytes(s))
    ensures !ok && view.Length >= 2 ==> ParseFrame(view[..]) == Some(Parsed([], 2))
  {
    OnlyTextIsRefused(s);
    StateBytesIs(s);
    ghost var was := view[..];
    hide Entries, Splice, NoneOverlong, ParseFrame, StateBytes, PresentGroups, GroupBytes;
    used := 0;
    ok := Store(view, 0, [STATE_ABI_VERSION]);
    if !ok {
      return;
    }
    ok := Store(view, 1, [0]);
    if !ok {
      return;
    }
    SpliceTwice(was, 0, [STATE_ABI_VERSION], [0]);
    assert [STATE_ABI_VERSION] + [0] == [STATE_ABI_VERSION, 0];
    var thrown, count, off := PutEntries(view, s, was);
    if thrown {
      FailedWriteIsEmpty(view[..]);
      return false, 0;
    }
    CountStored(was, count, GroupBytes(PresentGroups(Entries(s))));
    var _ := Store(view, 1, [count]);
    return true, off;
  }

  /** The loop over the table, with the count byte still zero. */
  method PutEntries(view: array<byte>, s: State, ghost was: seq<byte>) returns (thrown: bool, count: nat, off: nat)
    requires view.Length == |was| >= 2 && view[..] == Splice(was, 0, [STATE_ABI_VERSION, 0])
    modifies view
    ensures thrown <==> 2 + |GroupBytes(PresentGroups(Entries(s)))| > view.Length || !NoneOverlong(Entries(s))
    ensures thrown ==> view[..][..2] == [STATE_ABI_VERSION, 0]
    ensures !thrown ==>
      && count == |PresentGroups(Entries(s))| && off == 2 + |GroupBytes(PresentGroups(Entries(s)))|
      && view[..] == Splice(was, 0, [STATE_ABI_VERSION, 0] + GroupBytes(PresentGroups(Entries(s))))
  {
    ghost var entries := Entries(s);
    hide Entries, Splice, SameBefore, Payload, TlvBytes, GroupBytes;
    count, off := 0, 2;
    NoGroups();
    assert entries[..0] == [] && PresentGroups([]) == [];
    assert [STATE_ABI_VERSION, 0] + [] == [STATE_ABI_VERSION, 0];
    for i := 0 to 17
      invariant count == |PresentGroups(entries[..i])| <= i
      invariant off == 2 + |GroupBytes(PresentGroups(entries[..i]))| <= view.Length
      invariant view[..] == Splice(was, 0, [STATE_ABI_VERSION, 0] + GroupBytes(PresentGroups(entries[..i])))
      invariant NoneOverlong(entries[..i])
    {
      ghost var e, groups, now := entries[i], PresentGroups(entries[..i]), view[..];
      assert entries[..i + 1][..i] == entries[..i] && entries[..i + 1][i] == e;
      HeaderBytes(was, GroupBytes(groups));
      PrefixIsShorter(entries, i + 1);
      if e.group.Present? {
        GroupBytesOne(groups, Tlv(e.tag, Payload(e.group.atoms)));
      }
      var present, length;
      present, thrown, length := PutEntry(view, off, s, i);
      if thrown {
        HeaderKept(now, view[..], off);
        return true, 0, 0;
      }
      if present {
        FrameGrows(was, GroupBytes(groups), TlvBytes(Tlv(e.tag, Payload(e.group.atoms))));
        count := count + 1;
        off := off + 3 + length;
      }
    }
    assert entries[..17] == entries;
    return false, count, off;
  }

  lemma StateBytesIs(s: State)
    ensures StateBytes(s) == [STATE_ABI_VERSION, |PresentGroups(Entries(s))|] + GroupBytes(PresentGroups(Entries(s)))
  {
    FrameIs(Entries(s));
    hide Entries, PresentGroups, GroupBytes;
  }

  lemma FrameGrows(was: seq<byte>, groups: seq<byte>, tlv: seq<byte>)
    requires 2 + |groups| + |tlv| <= |was|
    ensures Splice(Splice(was, 0, [STATE_ABI_VERSION, 0] + groups), 2 + |groups|, tlv)
      == Splice(was, 0, [STATE_ABI_VERSION, 0] + (groups + tlv))
  {
    SpliceTwice(was, 0, [STATE_ABI_VERSION, 0] + groups, tlv);
    assert ([STATE_ABI_VERSION, 0] + groups) + tlv == [STATE_ABI_VERSION, 0] + (groups + tlv);
    hide Splice;
  }

  /** The probe's frame, measured: no state's frame is longer. */
  method MaxFrameBytes() returns (bytes: nat)
    ensures bytes == 634 && forall s :: |StateBytes(s)| <= bytes
  {
    var scratch := new byte[4096];
    ProbeIsFull();
    hide Entries, StateBytes;
    forall s
      ensures |StateBytes(s)| <= 634
    {
      LongestFrame(s);
    }
    LongestFrame(PROBE);
    var ok;
    ok, bytes := EncodeState(scratch, PROBE);
  }
}
