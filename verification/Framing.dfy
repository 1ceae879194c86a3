/** Length-delimited envelopes: clients/web/envelope-framing.js and the framing
    half of `decodeLengthDelimitedEnvelope` in clients/web/wire.js. */
module Framing {
  import opened Wrappers
  import opened Bytes
  import opened Varint
  import opened Fields
  import ControlFrame
  import FrameRoundTrip

  // ---- adding the prefix ----------------------------------------------------

  function Framed(envelope: seq<byte>): seq<byte> {
    VarintBytes(|envelope|) + envelope
  }

  /** The loop pushes prefix octets, then both parts are copied into a new
      buffer. The length of a typed array is below 2^32, where the unsigned
      shift of the source is a division. */
  method LengthDelimit(envelope: seq<byte>) returns (framed: array<byte>)
    requires |envelope| < 0x1_0000_0000
    ensures fresh(framed) && framed[..] == Framed(envelope)
  {
    var prefix: seq<byte> := [];
    var value: nat := |envelope|;
    while true
      invariant prefix + VarintBytes(value) == VarintBytes(|envelope|)
      decreases value
    {
      var low := value % 128;
      ghost var before := VarintBytes(value);
      value := value / 128;
      if value != 0 {
        assert before == [low + 128] + VarintBytes(value);
        assert (prefix + [low + 128]) + VarintBytes(value) == prefix + before;
        prefix := prefix + [low + 128];
      } else {
        assert before == [low];
        prefix := prefix + [low];
        break;
      }
    }
    framed := new byte[|prefix| + |envelope|](_ => 0);
    forall i | 0 <= i < |prefix| {
      framed[i] := prefix[i];
    }
    forall i | 0 <= i < |envelope| {
      framed[|prefix| + i] := envelope[i];
    }
    assert framed[..] == prefix + envelope;
  }

  // ---- taking one envelope off the front ------------------------------------

  /** null, a decoded envelope with the octets it used, or a thrown error. */
  datatype Decoded<+M> = NeedMore | Complete(message: M, consumed: nat) | Throws

  /** A decoder of envelope bodies; None is a thrown error. */
  type BodyDecoder<!M> = seq<byte> -> Option<M>

  function DecodeLengthDelimited<M>(bytes: seq<byte>, body: BodyDecoder<M>): (r: Decoded<M>)
    ensures r.Complete? ==> 0 < r.consumed <= |bytes|
  {
    if |bytes| == 0 then NeedMore
    else
      var prefix := ReadSmall(bytes, 0);
      if prefix.Failure? then NeedMore
      else
        var Reading(len, afterLen) := prefix.value;
        if afterLen + len > |bytes| then NeedMore
        else match body(bytes[afterLen..afterLen + len])
          case Some(m) => Complete(m, afterLen + len)
          case None => Throws
  }

  /** A verdict other than "need more" is final: appended octets do not change it. */
  lemma VerdictIsPrefixStable<M>(bytes: seq<byte>, more: seq<byte>, body: BodyDecoder<M>)
    requires !DecodeLengthDelimited(bytes, body).NeedMore?
    ensures DecodeLengthDelimited(bytes + more, body) == DecodeLengthDelimited(bytes, body)
  {
    hide ReadVarint;
    CompleteReadingIsStable(bytes, 0, more);
    var Reading(len, afterLen) := ReadVarint(bytes, 0);
    assert (bytes + more)[afterLen..afterLen + len] == bytes[afterLen..afterLen + len];
  }

  /** A prefix cut short is never accepted, whatever octets it consists of. */
  lemma TruncatedPrefixNeedsMore<M>(bytes: seq<byte>, body: BodyDecoder<M>)
    requires forall i :: 0 <= i < |bytes| ==> bytes[i] >= 128
    ensures DecodeLengthDelimited(bytes, body).NeedMore?
  {
    TruncatedReadingOvershoots(bytes, 0);
  }

  /** Unframing what was framed: exactly the envelope, and exactly its octets. */
  lemma FramedDecodes<M>(envelope: seq<byte>, suffix: seq<byte>, body: BodyDecoder<M>)
    requires |envelope| <= MAX_SAFE
    ensures DecodeLengthDelimited(Framed(envelope) + suffix, body) ==
      match body(envelope) case Some(m) => Complete(m, |Framed(envelope)|) case None => Throws
  {
    hide ReadVarint, VarintBytes;
    var bytes := Framed(envelope) + suffix;
    var prefix := VarintBytes(|envelope|);
    assert bytes[0..] == bytes && prefix <= bytes;
    ReadAfterWrite(|envelope|, bytes, 0);
    assert bytes[|prefix|..|prefix| + |envelope|] == envelope;
  }

  /** Nothing shorter than a whole frame decodes. */
  lemma PartialFrameNeedsMore<M>(envelope: seq<byte>, n: nat, body: BodyDecoder<M>)
    requires |envelope| <= MAX_SAFE && n < |Framed(envelope)|
    ensures DecodeLengthDelimited(Framed(envelope)[..n], body).NeedMore?
  {
    hide DecodeLengthDelimited;
    var all: BodyDecoder<()> := _ => Some(());
    var front, rest := Framed(envelope)[..n], Framed(envelope)[n..];
    assert front + rest == Framed(envelope) == Framed(envelope) + [];
    FramedDecodes(envelope, [], body);
    if !DecodeLengthDelimited(front, body).NeedMore? {
      VerdictIsPrefixStable(front, rest, body);
      VerdictWithinBytes(front, body, all);
      FramedDecodes(envelope, [], all);
      VerdictIsPrefixStable(front, rest, all);
    }
  }

  /** Whether a frame is complete does not depend on the body decoder. */
  lemma VerdictWithinBytes<M, N>(bytes: seq<byte>, body: BodyDecoder<M>, other: BodyDecoder<N>)
    requires !DecodeLengthDelimited(bytes, body).NeedMore?
    ensures !DecodeLengthDelimited(bytes, other).NeedMore?
    ensures DecodeLengthDelimited(bytes, other).Complete? ==> DecodeLengthDelimited(bytes, other).consumed <= |bytes|
  {
  }

  // ---- the envelope of a control frame --------------------------------------

  /** Arms of the envelope in the order `decodeEnvelopeBody` tries them. */
  const ENVELOPE_ARMS: seq<nat> := [7, 9, 3, 4, 2, 11, 12, 14, 15, 17, 20]

  datatype EnvelopeMessage =
    | ControlFrameMessage(frame: ControlFrame.Decoded)
    | OtherMessage(arm: nat, payload: seq<byte>)
    | Unknown

  function FirstArm(fields: FieldMap, arms: seq<nat>): Option<nat> {
    if arms == [] then None
    else if arms[0] in fields then Some(arms[0])
    else FirstArm(fields, arms[1..])
  }

  /** Only the control frame's own decoder is part of this model; the other
      arms are kept as their octets. */
  function DecodeEnvelopeBody(bytes: seq<byte>): Result<EnvelopeMessage, ParseError> {
    var fields :- Parse(bytes);
    match FirstArm(fields, ENVELOPE_ARMS)
    case None => Success(Unknown)
    case Some(arm) =>
      var payload :- ControlFrame.FirstBytes(fields, arm);
      if arm == ControlFrame.ENVELOPE_CONTROL_FRAME then
        var frame :- ControlFrame.DecodeControlFrame(payload.GetOr([]));
        Success(ControlFrameMessage(frame))
      else Success(OtherMessage(arm, payload.GetOr([])))
  }

  function EnvelopeDecoder(bytes: seq<byte>): Option<EnvelopeMessage> {
    match DecodeEnvelopeBody(bytes)
    case Success(m) => Some(m)
    case Failure(_) => None
  }

  /** An encoded control frame is recognised as one and returns its command. */
  lemma EnvelopeReturns(f: ControlFrame.Frame)
    requires |ControlFrame.EnvelopeBytes(f)| <= MAX_SAFE
    ensures EnvelopeDecoder(ControlFrame.EnvelopeBytes(f)) == Some(ControlFrameMessage(FrameRoundTrip.Expected(f)))
  {
    hide Parse, Serialize, FrameRoundTrip.Seen, ControlFrame.FrameFields, ControlFrame.DecodeControlFrame,
         FrameRoundTrip.Expected;
    var payload := Serialize(ControlFrame.FrameFields(f));
    var version := OptVarint(1, 1);
    var fields := ControlFrame.EnvelopeFields(2, payload);
    FrameRoundTrip.PayloadIsShorter(fields, 1);
    FrameRoundTrip.ParsedShows(fields);
    FrameRoundTrip.SeenAppend(version, [LenField(2, payload)]);
    FrameRoundTrip.SeenOptVarint(1, 1);
    FrameRoundTrip.SeenOne(LenField(2, payload));
    ParseSerialized(fields);
    var parsed := Parse(Serialize(fields)).value;
    assert forall n: nat :: n in parsed <==> Get(parsed, n) != [] by {
      forall n: nat ensures n in parsed <==> Get(parsed, n) != [] {
        assert Get(parsed, n) == ValuesOf(EntriesOf(fields), n);
      }
    }
    assert Get(parsed, 2) == [Blob(payload)];
    OnlyControlFrameArm(parsed);
    FrameRoundTrip.FrameReturns(f);
  }

  lemma OnlyControlFrameArm(fields: FieldMap)
    requires forall n: nat :: n in fields <==> n == 1 || n == 2
    ensures FirstArm(fields, ENVELOPE_ARMS) == Some(2)
  {
    var arms := ENVELOPE_ARMS;
    assert arms[1..][1..][1..][1..] == arms[4..];
    assert arms[1..][0] == 9 && arms[1..][1..][0] == 3 && arms[1..][1..][1..][0] == 4;
    assert FirstArm(fields, arms) == FirstArm(fields, arms[1..]) == FirstArm(fields, arms[1..][1..]);
    assert FirstArm(fields, arms[1..][1..]) == FirstArm(fields, arms[1..][1..][1..]) == FirstArm(fields, arms[4..]);
  }
}
