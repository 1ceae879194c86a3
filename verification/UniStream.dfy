/** Incremental stream reading: clients/web/authority-stream.js and
    clients/web/uni-stream.js, and the proof that how the octets were cut into
    chunks never shows. */
module UniStream {
  import opened Wrappers
  import opened Bytes
  import opened Framing
  import ControlFrame
  import FrameRoundTrip

  const STREAM_KIND_AUTHORITY: byte := 0x01
  const STREAM_KIND_VIDEO_STREAM: byte := 0x04
  const VIDEO_RECORD_PREFIX_LEN := 4

  // ---- draining: specification ----------------------------------------------

  /** What a drain delivered, what it left, and whether the decoder threw. */
  datatype Drained<+T> = Drained(delivered: seq<T>, tail: seq<byte>, threw: bool)

  function Prepend<T>(first: seq<T>, d: Drained<T>): Drained<T> {
    Drained(first + d.delivered, d.tail, d.threw)
  }

  function DrainEnvelopes<M>(buf: seq<byte>, body: BodyDecoder<M>): Drained<M>
    decreases |buf|
  {
    match DecodeLengthDelimited(buf, body)
    case NeedMore => Drained([], buf, false)
    case Throws => Drained([], buf, true)
    case Complete(m, consumed) => Prepend([m], DrainEnvelopes(buf[consumed..], body))
  }

  function BigEndian(b: seq<byte>): nat
    requires |b| >= 4
  {
    (b[0] as int) * 0x100_0000 + (b[1] as int) * 0x1_0000 + (b[2] as int) * 0x100 + b[3]
  }

  /** Where the record at the front ends, once it has arrived whole. */
  function RecordEnd(buf: seq<byte>): (end: Option<nat>)
    ensures end.Some? ==> 4 <= end.value <= |buf|
  {
    if |buf| < 4 then None
    else
      var end := 4 + BigEndian(buf);
      if |buf| < end then None else Some(end)
  }

  function DrainRecords(buf: seq<byte>): (d: Drained<seq<byte>>)
    ensures !d.threw
    decreases |buf|
  {
    match RecordEnd(buf)
    case None => Drained([], buf, false)
    case Some(end) => Prepend([buf[4..end]], DrainRecords(buf[end..]))
  }

  // ---- draining: the loops --------------------------------------------------

  /** Where the callbacks deliver. */
  class Sink<T> {
    var delivered: seq<T>

    constructor ()
      ensures delivered == []
    {
      delivered := [];
    }

    method Accept(item: T)
      modifies this
      ensures delivered == old(delivered) + [item]
    {
      delivered := delivered + [item];
    }
  }

  method DrainAuthorityEnvelopes<M>(input: seq<byte>, body: BodyDecoder<M>, sink: Sink<M>)
    returns (buf: seq<byte>, threw: bool)
    modifies sink
    ensures sink.delivered == old(sink.delivered) + DrainEnvelopes(input, body).delivered
    ensures buf == DrainEnvelopes(input, body).tail && threw == DrainEnvelopes(input, body).threw
  {
    hide DecodeLengthDelimited;
    buf := input;
    ghost var sofar: seq<M> := [];
    assert Prepend(sofar, DrainEnvelopes(buf, body)) == DrainEnvelopes(input, body);
    while true
      invariant sink.delivered == old(sink.delivered) + sofar
      invariant Prepend(sofar, DrainEnvelopes(buf, body)) == DrainEnvelopes(input, body)
      decreases |buf|
    {
      match DecodeLengthDelimited(buf, body)
      case NeedMore =>
        return buf, false;
      case Throws =>
        return buf, true;
      case Complete(m, consumed) =>
        ConsumedIsWithin(buf, body);
        ghost var rest := DrainEnvelopes(buf[consumed..], body);
        assert sofar + ([m] + rest.delivered) == (sofar + [m]) + rest.delivered;
        buf := buf[consumed..];
        sink.Accept(m);
        sofar := sofar + [m];
    }
  }

  method DrainVideoRecords(input: seq<byte>, sink: Sink<seq<byte>>) returns (buf: seq<byte>)
    modifies sink
    ensures sink.delivered == old(sink.delivered) + DrainRecords(input).delivered
    ensures buf == DrainRecords(input).tail
  {
    hide BigEndian;
    buf := input;
    ghost var sofar: seq<seq<byte>> := [];
    assert Prepend(sofar, DrainRecords(buf)) == DrainRecords(input);
    while true
      invariant sink.delivered == old(sink.delivered) + sofar
      invariant Prepend(sofar, DrainRecords(buf)) == DrainRecords(input)
      decreases |buf|
    {
      if |buf| < VIDEO_RECORD_PREFIX_LEN {
        return;
      }
      var length := BigEndian(buf);
      var end := VIDEO_RECORD_PREFIX_LEN + length;
      if |buf| < end {
        return;
      }
      var record := buf[VIDEO_RECORD_PREFIX_LEN..end];
      ghost var rest := DrainRecords(buf[end..]);
      assert sofar + ([record] + rest.delivered) == (sofar + [record]) + rest.delivered;
      sink.Accept(record);
      sofar := sofar + [record];
      buf := buf[end..];
    }
  }

  // ---- draining in two goes -------------------------------------------------

  /** Draining a longer buffer is draining its front, then the leftover with
      the rest appended; after a throw the rest is never looked at. */
  lemma {:induction false} DrainEnvelopesInTwo<M>(buf: seq<byte>, more: seq<byte>, body: BodyDecoder<M>)
    ensures var d, whole := DrainEnvelopes(buf, body), DrainEnvelopes(buf + more, body);
      if d.threw then whole.threw && whole.delivered == d.delivered
      else whole == Prepend(d.delivered, DrainEnvelopes(d.tail + more, body))
    decreases |buf|
  {
    hide DecodeLengthDelimited;
    var verdict := DecodeLengthDelimited(buf, body);
    if !verdict.NeedMore? {
      VerdictIsPrefixStable(buf, more, body);
    }
    if verdict.Complete? {
      ConsumedIsWithin(buf, body);
      Slices(buf, more, 0, verdict.consumed);
      DrainEnvelopesInTwo(buf[verdict.consumed..], more, body);
      var rest := DrainEnvelopes(buf[verdict.consumed..], body);
      Assoc([verdict.message], rest.delivered, DrainEnvelopes(rest.tail + more, body).delivered);
    }
  }

  lemma ConsumedIsWithin<M>(buf: seq<byte>, body: BodyDecoder<M>)
    requires DecodeLengthDelimited(buf, body).Complete?
    ensures 0 < DecodeLengthDelimited(buf, body).consumed <= |buf|
  {
  }

  lemma RecordEndIsPrefixStable(buf: seq<byte>, more: seq<byte>)
    requires RecordEnd(buf).Some?
    ensures RecordEnd(buf + more) == RecordEnd(buf)
  {
  }

  lemma {:induction false} DrainRecordsInTwo(buf: seq<byte>, more: seq<byte>)
    ensures var d := DrainRecords(buf);
      DrainRecords(buf + more) == Prepend(d.delivered, DrainRecords(d.tail + more))
    decreases |buf|
  {
    hide RecordEnd;
    if RecordEnd(buf).Some? {
      var end := RecordEnd(buf).value;
      RecordEndIsPrefixStable(buf, more);
      Slices(buf, more, 4, end);
      DrainRecordsInTwo(buf[end..], more);
      var rest := DrainRecords(buf[end..]);
      Assoc([buf[4..end]], rest.delivered, DrainRecords(rest.tail + more).delivered);
    }
  }

  // ---- the stream reader ----------------------------------------------------

  /** Everything a reader did: the kind it peeled, what it delivered on either
      callback, its leftover, and whether it failed. */
  datatype StreamReading<+M> = StreamReading(
    kind: Option<byte>,
    envelopes: seq<M>,
    records: seq<seq<byte>>,
    tail: seq<byte>,
    failed: bool)

  /** The whole body handled in one piece. */
  function ReadBody<M>(bytes: seq<byte>, body: BodyDecoder<M>): StreamReading<M> {
    if bytes == [] then StreamReading(None, [], [], [], false)
    else if bytes[0] == STREAM_KIND_AUTHORITY then
      var d := DrainEnvelopes(bytes[1..], body);
      StreamReading(Some(bytes[0]), d.delivered, [], d.tail, d.threw)
    else if bytes[0] == STREAM_KIND_VIDEO_STREAM then
      var d := DrainRecords(bytes[1..]);
      StreamReading(Some(bytes[0]), [], d.delivered, d.tail, false)
    else StreamReading(Some(bytes[0]), [], [], bytes[1..], false)
  }

  /** What a caller sees: a failed reader has no tail. */
  ghost predicate SameReading<M>(a: StreamReading<M>, b: StreamReading<M>) {
    a.kind == b.kind && a.envelopes == b.envelopes && a.records == b.records && a.failed == b.failed
    && (!a.failed ==> a.tail == b.tail)
  }

  datatype Outcome = Closed | Aborted | Failed

  /** Reads the stream chunk by chunk until it closes. `keepGoing` chunks are
      taken before the session stops wanting the stream; the read after them
      finds that out and abandons it. */
  method ReadUniStream<M>(chunks: seq<seq<byte>>, keepGoing: nat, body: BodyDecoder<M>, envelopes: Sink<M>,
                          records: Sink<seq<byte>>)
    returns (outcome: Outcome, kind: Option<byte>, tail: seq<byte>)
    requires envelopes as object != records as object
    requires envelopes.delivered == [] && records.delivered == []
    modifies envelopes, records
    ensures outcome.Aborted? ==> keepGoing <= |chunks|
    ensures outcome.Closed? ==> keepGoing > |chunks|
    ensures SameReading(
      StreamReading(kind, envelopes.delivered, records.delivered, tail, outcome.Failed?),
      ReadBody(Concat(chunks[..Min(keepGoing, |chunks|)]), body))
  {
    hide ReadBody;
    var buf: seq<byte> := [];
    kind := None;
    ghost var arrived: seq<byte> := [];
    var i := 0;
    NothingRead(body);
    while true
      invariant 0 <= i <= |chunks| && i <= keepGoing && arrived == Concat(chunks[..i])
      invariant ReadBody(arrived, body) == StreamReading(kind, envelopes.delivered, records.delivered, buf, false)
      decreases |chunks| - i
    {
      if i >= keepGoing {
        return Aborted, kind, buf;
      }
      if i == |chunks| {
        assert chunks[..i] == chunks;
        return Closed, kind, buf;
      }
      ReadBodyInTwo(arrived, chunks[i], body);
      ConcatOneMore(chunks, i);
      arrived := arrived + chunks[i];
      var threw;
      kind, buf, threw := TakeChunk(kind, buf, chunks[i], body, envelopes, records);
      i := i + 1;
      if threw {
        ReadBodyStaysFailed(chunks, i, Min(keepGoing, |chunks|), body);
        return Failed, kind, buf;
      }
    }
  }

  lemma NothingRead<M>(body: BodyDecoder<M>)
    ensures ReadBody([], body) == StreamReading(None, [], [], [], false)
  {
  }

  /** The turn of the loop that handles one chunk. */
  method TakeChunk<M>(kind0: Option<byte>, buf0: seq<byte>, value: seq<byte>, body: BodyDecoder<M>, envelopes: Sink<M>,
                      records: Sink<seq<byte>>)
    returns (kind: Option<byte>, buf: seq<byte>, threw: bool)
    requires envelopes as object != records as object
    requires kind0.None? ==> buf0 == [] && envelopes.delivered == [] && records.delivered == []
    modifies envelopes, records
    ensures StreamReading(kind, envelopes.delivered, records.delivered, buf, threw) ==
      OneMore(StreamReading(kind0, old(envelopes.delivered), old(records.delivered), buf0, false), value, body)
  {
    kind, buf, threw := kind0, buf0 + value, false;
    assert kind0.None? ==> buf == value;
    if kind.None? && |buf| >= 1 {
      kind := Some(buf[0]);
      buf := buf[1..];
    }
    if kind == Some(STREAM_KIND_AUTHORITY) {
      buf, threw := DrainAuthorityEnvelopes(buf, body, envelopes);
      if threw {
        return;
      }
    }
    if kind == Some(STREAM_KIND_VIDEO_STREAM) {
      buf := DrainVideoRecords(buf, records);
    }
  }

  lemma ConcatOneMore<T>(parts: seq<seq<T>>, i: nat)
    requires i < |parts|
    ensures Concat(parts[..i + 1]) == Concat(parts[..i]) + parts[i]
  {
    ConcatAppend(parts[..i], [parts[i]]);
    assert parts[..i + 1] == parts[..i] + [parts[i]];
    assert Concat([parts[i]]) == parts[i];
  }

  /** One more chunk: peel the kind if it is still missing, then drain. */
  function OneMore<M>(r: StreamReading<M>, chunk: seq<byte>, body: BodyDecoder<M>): StreamReading<M> {
    if r.kind.None? then ReadBody(chunk, body)
    else if r.kind.value == STREAM_KIND_AUTHORITY then
      var d := DrainEnvelopes(r.tail + chunk, body);
      StreamReading(r.kind, r.envelopes + d.delivered, r.records, d.tail, d.threw)
    else if r.kind.value == STREAM_KIND_VIDEO_STREAM then
      var d := DrainRecords(r.tail + chunk);
      StreamReading(r.kind, r.envelopes, r.records + d.delivered, d.tail, false)
    else StreamReading(r.kind, r.envelopes, r.records, r.tail + chunk, false)
  }

  /** Reading a body in two goes: the chunk boundary leaves no trace. */
  lemma ReadBodyInTwo<M>(bytes: seq<byte>, chunk: seq<byte>, body: BodyDecoder<M>)
    ensures var r := ReadBody(bytes, body);
      (r.kind.None? ==> bytes == []) &&
      if r.failed then SameReading(ReadBody(bytes + chunk, body), r)
      else ReadBody(bytes + chunk, body) == OneMore(r, chunk, body)
  {
    hide DrainEnvelopes, DrainRecords;
    if bytes == [] {
      assert bytes + chunk == chunk;
    } else {
      assert (bytes + chunk)[1..] == bytes[1..] + chunk;
      DrainEnvelopesInTwo(bytes[1..], chunk, body);
      DrainRecordsInTwo(bytes[1..], chunk);
    }
  }

  lemma {:induction false} ReadBodyStaysFailed<M>(chunks: seq<seq<byte>>, i: nat, j: nat, body: BodyDecoder<M>)
    requires i <= j <= |chunks| && ReadBody(Concat(chunks[..i]), body).failed
    ensures SameReading(ReadBody(Concat(chunks[..j]), body), ReadBody(Concat(chunks[..i]), body))
    decreases j - i
  {
    if i < j {
      ConcatOneMore(chunks, i);
      ReadBodyInTwo(Concat(chunks[..i]), chunks[i], body);
      ReadBodyStaysFailed(chunks, i + 1, j, body);
    }
  }

  /** The reader's own order of work: chunk after chunk, until one fails. */
  function ReadChunks<M>(chunks: seq<seq<byte>>, body: BodyDecoder<M>): StreamReading<M> {
    if chunks == [] then StreamReading(None, [], [], [], false)
    else
      var before := ReadChunks(chunks[..|chunks| - 1], body);
      if before.failed then before else OneMore(before, chunks[|chunks| - 1], body)
  }

  /** For every split, reading the chunks one after the other is reading their
      concatenation in one piece. */
  lemma {:induction false} ChunksReadAsOneBody<M>(chunks: seq<seq<byte>>, body: BodyDecoder<M>)
    ensures SameReading(ReadChunks(chunks, body), ReadBody(Concat(chunks), body))
    ensures !ReadChunks(chunks, body).failed ==> ReadChunks(chunks, body) == ReadBody(Concat(chunks), body)
  {
    hide ReadBody, OneMore;
    if chunks == [] {
      NothingRead(body);
    } else {
      var front := chunks[..|chunks| - 1];
      ChunksReadAsOneBody(front, body);
      ConcatOneMore(chunks, |front|);
      assert chunks[..|front| + 1] == chunks;
      ReadBodyInTwo(Concat(front), chunks[|front|], body);
    }
  }

  // ---- nothing is lost, nothing is invented ---------------------------------

  function U32(n: nat): seq<byte>
    requires n < 0x1_0000_0000
  {
    [n / 0x100_0000, n / 0x1_0000 % 256, n / 0x100 % 256, n % 256]
  }

  function FrameRecords(records: seq<seq<byte>>): seq<byte>
    requires forall i :: 0 <= i < |records| ==> |records[i]| < 0x1_0000_0000
  {
    if records == [] then [] else U32(|records[0]|) + records[0] + FrameRecords(records[1..])
  }

  lemma BigEndianU32(b: seq<byte>)
    requires |b| >= 4
    ensures BigEndian(b) < 0x1_0000_0000 && U32(BigEndian(b)) == b[..4]
  {
    var n := BigEndian(b);
    assert n / 0x100 == (b[0] as int) * 0x1_0000 + (b[1] as int) * 0x100 + b[2];
    assert n / 0x1_0000 == (b[0] as int) * 0x100 + b[1];
    assert n / 0x100_0000 == b[0];
  }

  /** The delivered records, framed again, and the leftover are the body. */
  lemma {:induction false} RecordsRebuildTheBody(buf: seq<byte>)
    ensures var d := DrainRecords(buf);
      && (forall i :: 0 <= i < |d.delivered| ==> |d.delivered[i]| < 0x1_0000_0000)
      && FrameRecords(d.delivered) + d.tail == buf
      && RecordEnd(d.tail).None?
    decreases |buf|
  {
    hide BigEndian, U32;
    if RecordEnd(buf).Some? {
      var end := RecordEnd(buf).value;
      BigEndianU32(buf);
      RecordsRebuildTheBody(buf[end..]);
      var rest := DrainRecords(buf[end..]);
      assert |buf[4..end]| < 0x1_0000_0000 && U32(|buf[4..end]|) == buf[..4];
      assert DrainRecords(buf) == Prepend([buf[4..end]], rest);
      hide RecordEnd, DrainRecords;
      FramedFirst(buf, end, rest.delivered, rest.tail);
    }
  }

  lemma FramedFirst(buf: seq<byte>, end: nat, records: seq<seq<byte>>, tail: seq<byte>)
    requires 4 <= end <= |buf| && |buf[4..end]| < 0x1_0000_0000 && U32(|buf[4..end]|) == buf[..4]
    requires forall i :: 0 <= i < |records| ==> |records[i]| < 0x1_0000_0000
    requires FrameRecords(records) + tail == buf[end..]
    ensures FrameRecords([buf[4..end]] + records) + tail == buf
  {
    hide U32;
    assert ([buf[4..end]] + records)[1..] == records;
    assert FrameRecords([buf[4..end]] + records) == buf[..4] + buf[4..end] + FrameRecords(records);
    hide FrameRecords;
    Assoc(buf[..4] + buf[4..end], FrameRecords(records), tail);
  }

  /** A leftover never holds a complete record or envelope. */
  lemma {:induction false} EnvelopeTailIsIncomplete<M>(buf: seq<byte>, body: BodyDecoder<M>)
    ensures var d := DrainEnvelopes(buf, body);
      if d.threw then DecodeLengthDelimited(d.tail, body).Throws? else DecodeLengthDelimited(d.tail, body).NeedMore?
    decreases |buf|
  {
    hide DecodeLengthDelimited;
    var verdict := DecodeLengthDelimited(buf, body);
    if verdict.Complete? {
      ConsumedIsWithin(buf, body);
      EnvelopeTailIsIncomplete(buf[verdict.consumed..], body);
    }
  }

  function FrameEnvelopes(envelopes: seq<seq<byte>>): seq<byte> {
    if envelopes == [] then [] else Framed(envelopes[0]) + FrameEnvelopes(envelopes[1..])
  }

  /** A stream of framed envelopes drains to exactly their decoded bodies. */
  lemma {:induction false} FramedEnvelopesDrain<M>(envelopes: seq<seq<byte>>, messages: seq<M>, body: BodyDecoder<M>)
    requires |messages| == |envelopes|
    requires forall i :: 0 <= i < |envelopes| ==> |envelopes[i]| <= MAX_SAFE && body(envelopes[i]) == Some(messages[i])
    ensures DrainEnvelopes(FrameEnvelopes(envelopes), body) == Drained(messages, [], false)
  {
    hide Framed, DecodeLengthDelimited;
    if envelopes == [] {
      EmptyNeedsMore(body);
    } else {
      var rest := FrameEnvelopes(envelopes[1..]);
      FramedDecodes(envelopes[0], rest, body);
      assert (Framed(envelopes[0]) + rest)[|Framed(envelopes[0])|..] == rest;
      FramedEnvelopesDrain(envelopes[1..], messages[1..], body);
      assert messages == [messages[0]] + messages[1..];
    }
  }

  lemma EmptyNeedsMore<M>(body: BodyDecoder<M>)
    ensures DecodeLengthDelimited([], body).NeedMore?
  {
  }

  /** End to end: control frames encoded, wrapped, framed, sent on one stream,
      cut anywhere and read chunk by chunk arrive as the same commands in the
      same order, with nothing left over. */
  lemma FramesSurviveAnyChunking(frames: seq<ControlFrame.Frame>, chunks: seq<seq<byte>>)
    requires forall i :: 0 <= i < |frames| ==> |ControlFrame.EnvelopeBytes(frames[i])| <= MAX_SAFE
    requires Concat(chunks) == [STREAM_KIND_AUTHORITY]
      + FrameEnvelopes(seq(|frames|, i requires 0 <= i < |frames| => ControlFrame.EnvelopeBytes(frames[i])))
    ensures ReadChunks(chunks, EnvelopeDecoder) ==
      StreamReading(Some(STREAM_KIND_AUTHORITY),
              seq(|frames|, i requires 0 <= i < |frames| => ControlFrameMessage(FrameRoundTrip.Expected(frames[i]))),
              [], [], false)
  {
    hide DrainEnvelopes, EnvelopeDecoder, FrameEnvelopes, ControlFrame.EnvelopeBytes, FrameRoundTrip.Expected,
         ReadChunks;
    var envelopes := seq(|frames|, i requires 0 <= i < |frames| => ControlFrame.EnvelopeBytes(frames[i]));
    var messages :=
      seq(|frames|, i requires 0 <= i < |frames| => ControlFrameMessage(FrameRoundTrip.Expected(frames[i])));
    forall i | 0 <= i < |frames|
      ensures EnvelopeDecoder(envelopes[i]) == Some(messages[i])
    {
      EnvelopeReturns(frames[i]);
    }
    FramedEnvelopesDrain(envelopes, messages, EnvelopeDecoder);
    assert Concat(chunks)[1..] == FrameEnvelopes(envelopes);
    ChunksReadAsOneBody(chunks, EnvelopeDecoder);
  }
}
