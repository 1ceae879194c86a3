/** Protobuf fields: the writers of clients/web/wire.js, its generic
    `parseFields` reader, and the proof that the reader inverts the writers. */
module Fields {
  import opened Wrappers
  import opened Bytes
  import opened Varint

  const WIRE_VARINT := 0
  const WIRE_64BIT := 1
  const WIRE_LEN := 2
  const WIRE_32BIT := 5

  const ZERO_WORD: Word := [0, 0, 0, 0]
  const NEGATIVE_ZERO_WORD: Word := [0, 0, 0, 128]

  /** A Number given as a float: the octets it narrows to, and whether it is a
      number other than 0 too small for them. */
  datatype Narrowed = Narrowed(word: Word, underflows: bool)

  type Float = f: Narrowed | f.underflows ==> f.word == ZERO_WORD || f.word == NEGATIVE_ZERO_WORD
    witness Narrowed(ZERO_WORD, false)

  /** One written field. */
  datatype Field =
    | VarintField(number: nat, value: nat)
    | LenField(number: nat, payload: seq<byte>)
    | FloatField(number: nat, word: Word)

  /** One parsed value: a bigint or a Uint8Array. */
  datatype Value = Integer(value: nat) | Blob(octets: seq<byte>)

  datatype Entry = Entry(number: nat, value: Value)

  datatype ParseError =
    | UnsupportedWireType
    | TagOrLengthTooLarge
    | WrongKind

  type FieldMap = map<nat, seq<Value>>

  // ---- writing: specification -----------------------------------------------

  function Tag(number: nat, wireType: nat): nat
  {
    number * 8 + wireType
  }

  function EncodeField(f: Field): seq<byte> {
    match f
    case VarintField(n, v) => VarintBytes(Tag(n, WIRE_VARINT)) + VarintBytes(v)
    case LenField(n, p) => VarintBytes(Tag(n, WIRE_LEN)) + VarintBytes(|p|) + p
    case FloatField(n, w) => VarintBytes(Tag(n, WIRE_32BIT)) + w
  }

  function Serialize(fs: seq<Field>): seq<byte> {
    if fs == [] then [] else EncodeField(fs[0]) + Serialize(fs[1..])
  }

  predicate IsNan(w: Word) {
    w[3] % 128 == 127 && w[2] >= 128 && (w[2] > 128 || w[1] != 0 || w[0] != 0)
  }

  /** The numbers JavaScript calls falsy: both zeros and every NaN, before any
      narrowing. */
  predicate Falsy(f: Float) {
    !f.underflows && (f.word == ZERO_WORD || f.word == NEGATIVE_ZERO_WORD || IsNan(f.word))
  }

  /** proto3 default omission, writer by writer. */
  function OptVarint(number: nat, v: nat): seq<Field> {
    if v == 0 then [] else [VarintField(number, v)]
  }

  function OptFloat(number: nat, f: Float): seq<Field> {
    if Falsy(f) then [] else [FloatField(number, f.word)]
  }

  function OptBytes(number: nat, payload: seq<byte>): seq<Field> {
    if payload == [] then [] else [LenField(number, payload)]
  }

  lemma SerializeOne(f: Field)
    ensures Serialize([f]) == EncodeField(f)
  {
    assert [f][1..] == [];
  }

  // ---- writing: the pushing methods -----------------------------------------

  method WriteTag(out: ByteArray, number: nat, wireType: nat)
    modifies out
    ensures out.octets == old(out.octets) + VarintBytes(Tag(number, wireType))
  {
    var _ := out.WriteVarint(number * 8 + wireType);
  }

  method FieldVarint(out: ByteArray, number: nat, value: nat)
    modifies out
    ensures out.octets == old(out.octets) + Serialize(OptVarint(number, value))
  {
    if value == 0 {
      return;
    }
    WriteTag(out, number, WIRE_VARINT);
    var _ := out.WriteVarint(value);
    SerializeOne(VarintField(number, value));
    assert out.octets == old(out.octets) + EncodeField(VarintField(number, value));
  }

  method FieldMessage(out: ByteArray, number: nat, payload: seq<byte>)
    modifies out
    ensures out.octets == old(out.octets) + Serialize([LenField(number, payload)])
  {
    hide VarintBytes, Serialize;
    WriteTag(out, number, WIRE_LEN);
    var _ := out.WriteVarint(|payload|);
    out.PushAll(payload);
    SerializeOne(LenField(number, payload));
    Assoc(old(out.octets), VarintBytes(Tag(number, WIRE_LEN)), VarintBytes(|payload|));
    Assoc(old(out.octets), VarintBytes(Tag(number, WIRE_LEN)) + VarintBytes(|payload|), payload);
  }

  method FieldBytes(out: ByteArray, number: nat, payload: seq<byte>)
    modifies out
    ensures out.octets == old(out.octets) + Serialize(OptBytes(number, payload))
  {
    if |payload| == 0 {
      return;
    }
    FieldMessage(out, number, payload);
  }

  method FieldFloat(out: ByteArray, number: nat, value: Float)
    modifies out
    ensures out.octets == old(out.octets) + Serialize(OptFloat(number, value))
  {
    if Falsy(value) {
      return;
    }
    WriteTag(out, number, WIRE_32BIT);
    out.PushAll(value.word);
    SerializeOne(FloatField(number, value.word));
    assert out.octets == old(out.octets) + EncodeField(FloatField(number, value.word));
  }

  lemma {:induction false} SerializeAppend(a: seq<Field>, b: seq<Field>)
    ensures Serialize(a + b) == Serialize(a) + Serialize(b)
  {
    hide EncodeField;
    Cons(a, b);
    if a != [] {
      SerializeAppend(a[1..], b);
      Assoc(EncodeField(a[0]), Serialize(a[1..]), Serialize(b));
    }
  }

  // ---- reading --------------------------------------------------------------

  /** The varint that carries a tag or a length, refused beyond the safe integers. */
  function ReadSmall(view: seq<byte>, offset: nat): (r: Result<Reading, ParseError>)
    ensures r.Success? ==> offset < r.value.next
  {
    var reading := ReadVarint(view, offset);
    if reading.value > MAX_SAFE then Failure(TagOrLengthTooLarge) else Success(reading)
  }

  datatype Step = Step(entry: Entry, next: nat)

  /** One turn of the reader. The field number comes from `tag >>> 3`, which
      first reduces the tag to 32 bits; the wire type keeps the low three. */
  function ParseEntry(bytes: seq<byte>, offset: nat): (r: Result<Step, ParseError>)
    ensures r.Success? ==> offset < r.value.next
  {
    var tag :- ReadSmall(bytes, offset);
    var number := (tag.value % 0x1_0000_0000) / 8;
    var wireType := tag.value % 8;
    if wireType == WIRE_VARINT then
      var v := ReadVarint(bytes, tag.next);
      Success(Step(Entry(number, Integer(v.value)), v.next))
    else if wireType == WIRE_LEN then
      var len :- ReadSmall(bytes, tag.next);
      Success(Step(Entry(number, Blob(Subarray(bytes, len.next, len.next + len.value))), len.next + len.value))
    else if wireType == WIRE_64BIT then
      Success(Step(Entry(number, Blob(Subarray(bytes, tag.next, tag.next + 8))), tag.next + 8))
    else if wireType == WIRE_32BIT then
      Success(Step(Entry(number, Blob(Subarray(bytes, tag.next, tag.next + 4))), tag.next + 4))
    else Failure(UnsupportedWireType)
  }

  function ParseEntries(bytes: seq<byte>, offset: nat): Result<seq<Entry>, ParseError>
    decreases |bytes| - offset
  {
    if offset >= |bytes| then Success([])
    else
      var step :- ParseEntry(bytes, offset);
      var rest :- ParseEntries(bytes, step.next);
      Success([step.entry] + rest)
  }

  /** The values of one field number, in wire order. */
  function ValuesOf(es: seq<Entry>, number: nat): seq<Value> {
    if es == [] then []
    else (if es[0].number == number then [es[0].value] else []) + ValuesOf(es[1..], number)
  }

  /** `fields.get(number) ?? []` */
  function Get(fields: FieldMap, number: nat): seq<Value> {
    if number in fields then fields[number] else []
  }

  /** A map groups the entries: a key exactly when the number occurred, and
      under it every value in wire order. */
  ghost predicate Groups(fields: FieldMap, es: seq<Entry>) {
    forall n: nat :: Get(fields, n) == ValuesOf(es, n) && (n in fields <==> ValuesOf(es, n) != [])
  }

  /** `fields.get(number).push(value)`, creating the list on first use. */
  function Push(fields: FieldMap, e: Entry): FieldMap {
    fields[e.number := Get(fields, e.number) + [e.value]]
  }

  lemma PushGroups(fields: FieldMap, es: seq<Entry>, e: Entry)
    requires Groups(fields, es)
    ensures Groups(Push(fields, e), es + [e])
  {
    var pushed := Push(fields, e);
    forall n: nat
      ensures Get(pushed, n) == ValuesOf(es + [e], n) && (n in pushed <==> ValuesOf(es + [e], n) != [])
    {
      ValuesOfAppend(es, [e], n);
      assert ValuesOf([e], n) == if e.number == n then [e.value] else [];
      assert Get(fields, n) == ValuesOf(es, n);
    }
  }

  function Group(es: seq<Entry>): (fields: FieldMap)
    ensures Groups(fields, es)
  {
    if es == [] then map[]
    else
      var front := es[..|es| - 1];
      assert front + [es[|es| - 1]] == es;
      var grouped := Group(front);
      PushGroups(grouped, front, es[|es| - 1]);
      Push(grouped, es[|es| - 1])
  }

  lemma {:induction false} ValuesOfAppend(a: seq<Entry>, b: seq<Entry>, n: nat)
    ensures ValuesOf(a + b, n) == ValuesOf(a, n) + ValuesOf(b, n)
  {
    Cons(a, b);
    if a != [] {
      ValuesOfAppend(a[1..], b, n);
      Assoc(if a[0].number == n then [a[0].value] else [], ValuesOf(a[1..], n), ValuesOf(b, n));
    }
  }

  /** `parseFields` as a function of the octets. */
  function Parse(bytes: seq<byte>): Result<FieldMap, ParseError> {
    var es :- ParseEntries(bytes, 0);
    Success(Group(es))
  }

  /** The loop of the source: an offset and a Map filled in place. */
  method ParseFields(bytes: seq<byte>) returns (r: Result<FieldMap, ParseError>)
    ensures r.Success? <==> ParseEntries(bytes, 0).Success?
    ensures r.Success? ==> Groups(r.value, ParseEntries(bytes, 0).value)
    ensures r.Failure? ==> r.error == ParseEntries(bytes, 0).error
  {
    hide ParseEntry, ParsedSoFar, Groups;
    var fields: FieldMap := map[];
    var offset: nat := 0;
    ghost var seen: seq<Entry> := [];
    NothingParsed(bytes);
    while offset < |bytes|
      invariant Groups(fields, seen)
      invariant ParsedSoFar(bytes, seen, offset)
      decreases |bytes| - offset
    {
      var step := ParseEntry(bytes, offset);
      ParseTurn(bytes, seen, offset);
      if step.Failure? {
        return Failure(step.error);
      }
      var Step(entry, next) := step.value;
      ghost var before := fields;
      if entry.number !in fields {
        fields := fields[entry.number := []];
      }
      fields := fields[entry.number := fields[entry.number] + [entry.value]];
      PushGroups(before, seen, entry);
      assert fields == Push(before, entry);
      seen := seen + [entry];
      offset := next;
    }
    AllParsed(bytes, seen, offset);
    r := Success(fields);
  }

  /** Entries already seen, then whatever the rest of the octets parse to. */
  ghost predicate ParsedSoFar(bytes: seq<byte>, seen: seq<Entry>, offset: nat) {
    var rest := ParseEntries(bytes, offset);
    ParseEntries(bytes, 0) == if rest.Success? then Success(seen + rest.value) else rest
  }

  lemma NothingParsed(bytes: seq<byte>)
    ensures Groups(map[], []) && ParsedSoFar(bytes, [], 0)
  {
    hide ParseEntry;
    var rest := ParseEntries(bytes, 0);
    if rest.Success? {
      assert [] + rest.value == rest.value;
    }
  }

  lemma AllParsed(bytes: seq<byte>, seen: seq<Entry>, offset: nat)
    requires ParsedSoFar(bytes, seen, offset) && offset >= |bytes|
    ensures ParseEntries(bytes, 0) == Success(seen)
  {
    assert seen + [] == seen;
  }

  lemma ParseTurn(bytes: seq<byte>, seen: seq<Entry>, offset: nat)
    requires offset < |bytes| && ParsedSoFar(bytes, seen, offset)
    ensures var step := ParseEntry(bytes, offset);
      if step.Failure? then ParseEntries(bytes, 0) == Failure(step.error)
      else ParsedSoFar(bytes, seen + [step.value.entry], step.value.next)
  {
    hide ParseEntry;
    var step := ParseEntry(bytes, offset);
    if step.Success? {
      var rest := ParseEntries(bytes, step.value.next);
      if rest.Success? {
        assert seen + ([step.value.entry] + rest.value) == (seen + [step.value.entry]) + rest.value;
      }
    }
  }

  // ---- the reader inverts the writers ---------------------------------------

  /** What a written field reads back as. */
  function EntryOf(f: Field): Entry {
    match f
    case VarintField(n, v) => Entry(n, Integer(v))
    case LenField(n, p) => Entry(n, Blob(p))
    case FloatField(n, w) => Entry(n, Blob(w))
  }

  function EntriesOf(fs: seq<Field>): seq<Entry> {
    if fs == [] then [] else [EntryOf(fs[0])] + EntriesOf(fs[1..])
  }

  /** Field numbers of the protobuf range, 1 to 2^29 - 1. */
  predicate Numbered(fs: seq<Field>) {
    forall i :: 0 <= i < |fs| ==> 0 < fs[i].number < 0x2000_0000
  }

  /** The tag of a field with a number in range reads back as that number and wire type. */
  lemma ReadTag(number: nat, wireType: nat, bytes: seq<byte>, offset: nat)
    requires 0 < number < 0x2000_0000 && wireType < 8
    requires offset <= |bytes| && VarintBytes(Tag(number, wireType)) <= bytes[offset..]
    ensures var tag := ReadSmall(bytes, offset);
      tag == Success(Reading(Tag(number, wireType), offset + |VarintBytes(Tag(number, wireType))|))
      && (tag.value.value % 0x1_0000_0000) / 8 == number && tag.value.value % 8 == wireType
  {
    ReadAfterWrite(Tag(number, wireType), bytes, offset);
  }

  lemma SplitPrefix(a: seq<byte>, b: seq<byte>, bytes: seq<byte>, offset: nat)
    requires offset <= |bytes| && a + b <= bytes[offset..]
    ensures a <= bytes[offset..] && offset + |a| <= |bytes| && b <= bytes[offset + |a|..]
  {
    var here := bytes[offset..];
    assert bytes[offset + |a|..] == here[|a|..];
    assert (a + b)[|a|..] == b;
    assert a == (a + b)[..|a|];
  }

  lemma {:induction false} ParseVarintField(f: Field, bytes: seq<byte>, offset: nat)
    requires f.VarintField? && 0 < f.number < 0x2000_0000
    requires offset <= |bytes| && EncodeField(f) <= bytes[offset..]
    ensures ParseEntry(bytes, offset) == Success(Step(EntryOf(f), offset + |EncodeField(f)|))
  {
    hide VarintBytes, ReadVarint;
    var tag := VarintBytes(Tag(f.number, WIRE_VARINT));
    SplitPrefix(tag, VarintBytes(f.value), bytes, offset);
    ReadTag(f.number, WIRE_VARINT, bytes, offset);
    ReadAfterWrite(f.value, bytes, offset + |tag|);
  }

  lemma {:induction false} ParseLenField(f: Field, bytes: seq<byte>, offset: nat)
    requires f.LenField? && 0 < f.number < 0x2000_0000
    requires offset <= |bytes| <= MAX_SAFE && EncodeField(f) <= bytes[offset..]
    ensures ParseEntry(bytes, offset) == Success(Step(EntryOf(f), offset + |EncodeField(f)|))
  {
    hide VarintBytes, ReadVarint;
    var tag := VarintBytes(Tag(f.number, WIRE_LEN));
    var len := VarintBytes(|f.payload|);
    assert tag + len + f.payload == tag + (len + f.payload);
    SplitPrefix(tag, len + f.payload, bytes, offset);
    ReadTag(f.number, WIRE_LEN, bytes, offset);
    var after := offset + |tag|;
    SplitPrefix(len, f.payload, bytes, after);
    ReadAfterWrite(|f.payload|, bytes, after);
    SliceOfPrefix(f.payload, bytes, after + |len|);
  }

  lemma {:induction false} ParseFloatField(f: Field, bytes: seq<byte>, offset: nat)
    requires f.FloatField? && 0 < f.number < 0x2000_0000
    requires offset <= |bytes| && EncodeField(f) <= bytes[offset..]
    ensures ParseEntry(bytes, offset) == Success(Step(EntryOf(f), offset + |EncodeField(f)|))
  {
    hide VarintBytes, ReadVarint;
    var tag := VarintBytes(Tag(f.number, WIRE_32BIT));
    SplitPrefix(tag, f.word, bytes, offset);
    ReadTag(f.number, WIRE_32BIT, bytes, offset);
    SliceOfPrefix(f.word, bytes, offset + |tag|);
  }

  lemma SliceOfPrefix(p: seq<byte>, bytes: seq<byte>, offset: nat)
    requires offset <= |bytes| && p <= bytes[offset..]
    ensures Subarray(bytes, offset, offset + |p|) == p
  {
    assert bytes[offset..offset + |p|] == bytes[offset..][..|p|] == p;
  }

  lemma ParseOneField(f: Field, bytes: seq<byte>, offset: nat)
    requires 0 < f.number < 0x2000_0000
    requires offset <= |bytes| <= MAX_SAFE && EncodeField(f) <= bytes[offset..]
    ensures ParseEntry(bytes, offset) == Success(Step(EntryOf(f), offset + |EncodeField(f)|))
  {
    match f
    case VarintField(_, _) => ParseVarintField(f, bytes, offset);
    case LenField(_, _) => ParseLenField(f, bytes, offset);
    case FloatField(_, _) => ParseFloatField(f, bytes, offset);
  }

  /** The reader goes past one written field and on with the rest. */
  lemma ParsePastField(f: Field, bytes: seq<byte>, offset: nat)
    requires 0 < f.number < 0x2000_0000
    requires offset <= |bytes| <= MAX_SAFE && EncodeField(f) <= bytes[offset..]
    ensures var rest := ParseEntries(bytes, offset + |EncodeField(f)|);
      ParseEntries(bytes, offset) == if rest.Success? then Success([EntryOf(f)] + rest.value) else rest
  {
    hide ParseEntry, EncodeField;
    EncodedFieldIsNonempty(f);
    ParseOneField(f, bytes, offset);
    var step := ParseEntry(bytes, offset).value;
    assert step == Step(EntryOf(f), offset + |EncodeField(f)|);
    var rest := ParseEntries(bytes, step.next);
  }

  lemma SplitExact(a: seq<byte>, b: seq<byte>, bytes: seq<byte>, offset: nat)
    requires offset <= |bytes| && bytes[offset..] == a + b
    ensures a <= bytes[offset..] && offset + |a| <= |bytes| && bytes[offset + |a|..] == b
  {
    assert bytes[offset + |a|..] == bytes[offset..][|a|..];
  }

  lemma EncodedFieldIsNonempty(f: Field)
    ensures |EncodeField(f)| > 0
  {
  }

  lemma {:induction false} ParseSerializedAt(fs: seq<Field>, bytes: seq<byte>, offset: nat)
    requires Numbered(fs)
    requires offset <= |bytes| <= MAX_SAFE && bytes[offset..] == Serialize(fs)
    ensures ParseEntries(bytes, offset) == Success(EntriesOf(fs))
    decreases |fs|
  {
    hide ParseEntry, EncodeField;
    if fs == [] {
      assert |bytes[offset..]| == 0;
    } else {
      var one, others := EncodeField(fs[0]), fs[1..];
      SplitExact(one, Serialize(others), bytes, offset);
      ParsePastField(fs[0], bytes, offset);
      ParseSerializedAt(others, bytes, offset + |one|);
      assert EntriesOf(fs) == [EntryOf(fs[0])] + EntriesOf(others);
    }
  }

  /** Reader after writers: any list of fields parses back to its entries, in order. */
  lemma ParseSerialized(fs: seq<Field>)
    requires Numbered(fs) && |Serialize(fs)| <= MAX_SAFE
    ensures ParseEntries(Serialize(fs), 0) == Success(EntriesOf(fs))
    ensures Parse(Serialize(fs)).Success? && Groups(Parse(Serialize(fs)).value, EntriesOf(fs))
  {
    assert Serialize(fs)[0..] == Serialize(fs);
    ParseSerializedAt(fs, Serialize(fs), 0);
  }

  lemma {:induction false} EntriesOfAppend(a: seq<Field>, b: seq<Field>)
    ensures EntriesOf(a + b) == EntriesOf(a) + EntriesOf(b)
  {
    Cons(a, b);
    if a != [] {
      EntriesOfAppend(a[1..], b);
      Assoc([EntryOf(a[0])], EntriesOf(a[1..]), EntriesOf(b));
    }
  }
}
