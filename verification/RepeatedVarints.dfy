/** `repeatedVarints` of clients/web/wire.js: a repeated field in both of the
    encodings proto3 permits, packed and unpacked. */
module RepeatedVarints {
  import opened Wrappers
  import opened Bytes
  import opened Varint
  import opened Fields
  import opened Numbers
  import FrameRoundTrip

  // ---- the reader -----------------------------------------------------------

  /** A packed value is refused above the safe integers, so `Number()` is exact
      on it. */
  function Unpack(blob: seq<byte>, offset: nat): Result<seq<Number>, ParseError>
    decreases |blob| - offset
  {
    if offset >= |blob| then Success([])
    else
      var first :- ReadSmall(blob, offset);
      var rest :- Unpack(blob, first.next);
      Success([ToNumber(first.value)] + rest)
  }

  function EntryValues(entry: Value): Result<seq<Number>, ParseError> {
    match entry
    case Blob(octets) => Unpack(octets, 0)
    case Integer(v) => Success([ToNumber(v)])
  }

  function Collect(entries: seq<Value>): Result<seq<Number>, ParseError> {
    if entries == [] then Success([])
    else
      var first :- EntryValues(entries[0]);
      var rest :- Collect(entries[1..]);
      Success(first + rest)
  }

  /** The two nested loops of the source. */
  method RepeatedVarints(fields: FieldMap, number: nat) returns (r: Result<seq<Number>, ParseError>)
    ensures r == Collect(Get(fields, number))
  {
    hide EntryValues;
    var entries := Get(fields, number);
    var values: seq<Number> := [];
    assert entries[0..] == entries;
    assert forall vs: seq<Number> :: [] + vs == vs;
    for i := 0 to |entries|
      invariant Continues(Collect(entries), values, Collect(entries[i..]))
    {
      assert entries[i..][1..] == entries[i + 1..];
      var more := ReadEntry(entries[i]);
      if more.Failure? {
        return Failure(more.error);
      }
      var rest := Collect(entries[i + 1..]);
      if rest.Success? {
        assert values + (more.value + rest.value) == (values + more.value) + rest.value;
      }
      values := values + more.value;
    }
    assert values + [] == values;
    r := Success(values);
  }

  /** The result so far, followed by what is still to come. */
  ghost predicate Continues(whole: Result<seq<Number>, ParseError>, sofar: seq<Number>,
                            rest: Result<seq<Number>, ParseError>) {
    whole == if rest.Success? then Success(sofar + rest.value) else rest
  }

  method ReadEntry(entry: Value) returns (r: Result<seq<Number>, ParseError>)
    ensures r == EntryValues(entry)
  {
    hide ReadSmall, ToNumber;
    if entry.Integer? {
      return Success([ToNumber(entry.value)]);
    }
    var values: seq<Number> := [];
    var offset: nat := 0;
    assert forall vs: seq<Number> :: [] + vs == vs;
    while offset < |entry.octets|
      invariant Continues(Unpack(entry.octets, 0), values, Unpack(entry.octets, offset))
      decreases |entry.octets| - offset
    {
      var reading := ReadSmall(entry.octets, offset);
      if reading.Failure? {
        return Failure(reading.error);
      }
      var number := ToNumber(reading.value.value);
      ghost var rest := Unpack(entry.octets, reading.value.next);
      if rest.Success? {
        assert values + ([number] + rest.value) == (values + [number]) + rest.value;
      }
      values := values + [number];
      offset := reading.value.next;
    }
    assert values + [] == values;
    r := Success(values);
  }

  // ---- any mixture of the two encodings returns the list --------------------

  /** One wire entry: a packed run, or a single unpacked value. */
  datatype Part = Packed(run: seq<nat>) | Single(value: nat)

  function PackedBytes(run: seq<nat>): seq<byte> {
    if run == [] then [] else VarintBytes(run[0]) + PackedBytes(run[1..])
  }

  function PartField(number: nat, p: Part): Field {
    match p
    case Packed(run) => LenField(number, PackedBytes(run))
    case Single(v) => VarintField(number, v)
  }

  function PartValues(p: Part): seq<nat> {
    match p case Packed(run) => run case Single(v) => [v]
  }

  function AllValues(parts: seq<Part>): seq<nat> {
    if parts == [] then [] else PartValues(parts[0]) + AllValues(parts[1..])
  }

  function PartFields(number: nat, parts: seq<Part>): seq<Field> {
    if parts == [] then [] else [PartField(number, parts[0])] + PartFields(number, parts[1..])
  }

  function Entries(parts: seq<Part>): seq<Value> {
    if parts == [] then [] else [EntryOf(PartField(0, parts[0])).value] + Entries(parts[1..])
  }

  predicate Safe(values: seq<nat>) {
    forall i :: 0 <= i < |values| ==> values[i] <= MAX_SAFE
  }

  /** Every packed value is one the reader takes. */
  predicate PackedSafe(parts: seq<Part>) {
    forall i :: 0 <= i < |parts| && parts[i].Packed? ==> Safe(parts[i].run)
  }

  function Finites(values: seq<nat>): seq<Number> {
    seq(|values|, i requires 0 <= i < |values| => Finite(values[i]))
  }

  /** The safe integers are read as themselves. */
  lemma SafeIsExact(values: seq<nat>)
    requires Safe(values)
    ensures ToNumbers(values) == Finites(values)
  {
    hide ToNumber;
    forall i | 0 <= i < |values|
      ensures ToNumber(values[i]) == Finite(values[i])
    {
      SmallSurvives(values[i]);
    }
  }

  lemma NumbersAppend(a: seq<nat>, b: seq<nat>)
    ensures ToNumbers(a + b) == ToNumbers(a) + ToNumbers(b)
    ensures |a| == 1 ==> ToNumbers(a) == [ToNumber(a[0])]
  {
    hide ToNumber;
  }

  lemma {:induction false} UnpackPacked(run: seq<nat>, blob: seq<byte>, offset: nat)
    requires offset <= |blob| && blob[offset..] == PackedBytes(run) && Safe(run)
    ensures Unpack(blob, offset) == Success(ToNumbers(run))
    decreases |run|
  {
    hide ReadVarint, VarintBytes, ToNumber;
    if run == [] {
      assert |blob[offset..]| == 0;
    } else {
      var one := VarintBytes(run[0]);
      SplitExact(one, PackedBytes(run[1..]), blob, offset);
      ReadAfterWrite(run[0], blob, offset);
      UnpackPacked(run[1..], blob, offset + |one|);
      assert run == [run[0]] + run[1..];
      NumbersAppend([run[0]], run[1..]);
      hide ToNumbers;
    }
  }

  /** Every split of a list into packed and unpacked entries collects back to
      the Numbers nearest to it, unpacked values of any size included. */
  lemma {:induction false} CollectReturnsTheNumbers(parts: seq<Part>)
    requires PackedSafe(parts)
    ensures Collect(Entries(parts)) == Success(ToNumbers(AllValues(parts)))
  {
    hide Unpack, ToNumber;
    if parts != [] {
      CollectReturnsTheNumbers(parts[1..]);
      if parts[0].Packed? {
        var blob := PackedBytes(parts[0].run);
        assert blob[0..] == blob;
        UnpackPacked(parts[0].run, blob, 0);
      }
      NumbersAppend(PartValues(parts[0]), AllValues(parts[1..]));
      assert Entries(parts)[1..] == Entries(parts[1..]);
    }
  }

  lemma {:induction false} PartsAreSafe(parts: seq<Part>)
    requires Safe(AllValues(parts))
    ensures PackedSafe(parts)
  {
    if parts != [] {
      var values, first := AllValues(parts), PartValues(parts[0]);
      assert first == values[..|first|] && AllValues(parts[1..]) == values[|first|..];
      PartsAreSafe(parts[1..]);
    }
  }

  /** A list within the safe integers comes back itself. */
  lemma CollectReturnsTheList(parts: seq<Part>)
    requires Safe(AllValues(parts))
    ensures Collect(Entries(parts)) == Success(Finites(AllValues(parts)))
  {
    PartsAreSafe(parts);
    CollectReturnsTheNumbers(parts);
    SafeIsExact(AllValues(parts));
    hide Collect, Safe, PackedSafe, ToNumbers, Finites;
  }

  lemma {:induction false} SeenParts(number: nat, parts: seq<Part>)
    ensures FrameRoundTrip.Seen(PartFields(number, parts), number) == Entries(parts)
  {
    hide FrameRoundTrip.Seen;
    if parts == [] {
      FrameRoundTrip.SeenNothing();
    } else {
      FrameRoundTrip.SeenOne(PartField(number, parts[0]));
      FrameRoundTrip.SeenAppend([PartField(number, parts[0])], PartFields(number, parts[1..]));
      SeenParts(number, parts[1..]);
    }
  }

  /** The same from the octets of a whole message, with other fields before and
      after the repeated one. */
  lemma MessageReturnsTheList(number: nat, before: seq<Field>, parts: seq<Part>, after: seq<Field>)
    requires Safe(AllValues(parts))
    requires Numbered(before + PartFields(number, parts) + after)
    requires |Serialize(before + PartFields(number, parts) + after)| <= MAX_SAFE
    requires FrameRoundTrip.Seen(before, number) == [] && FrameRoundTrip.Seen(after, number) == []
    ensures var message := Parse(Serialize(before + PartFields(number, parts) + after));
      message.Success? && Collect(Get(message.value, number)) == Success(Finites(AllValues(parts)))
  {
    hide Parse, Serialize, FrameRoundTrip.Seen, Collect, Finites;
    FrameRoundTrip.ParsedShows(before + PartFields(number, parts) + after);
    FrameRoundTrip.SeenAppend(before + PartFields(number, parts), after);
    FrameRoundTrip.SeenAppend(before, PartFields(number, parts));
    SeenParts(number, parts);
    assert [] + Entries(parts) + [] == Entries(parts);
    CollectReturnsTheList(parts);
  }
}
