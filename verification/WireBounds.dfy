/** Exact wire ranges of decoded fields: clients/web/wire-bounds.js. A field is a
    JavaScript value of any kind; nothing is coerced. */
module WireBounds {
  import opened Wrappers

  // ---- values ---------------------------------------------------------------

  /** `NonFinite` is NaN or an infinity; `Other` is any kind no rule accepts. */
  datatype Js = Num(value: real) | NonFinite | Big(big: int) | Text(text: string) | True | Other

  const U8_MAX: nat := 0xff
  const U32_MAX: nat := 0xffff_ffff
  const U64_MAX: nat := 0xffff_ffff_ffff_ffff
  const I64_MIN: int := -0x8000_0000_0000_0000
  const I64_MAX: int := 0x7fff_ffff_ffff_ffff

  predicate IsInteger(v: Js) {
    v.Num? && v.value.Floor as real == v.value
  }

  predicate IsUintInRange(v: Js, max: nat) {
    IsInteger(v) && v.value >= 0.0 && v.value <= max as real
  }

  predicate IsU64(v: Js) {
    v.Big? && 0 <= v.big <= U64_MAX
  }

  predicate IsI64(v: Js) {
    v.Big? && I64_MIN <= v.big <= I64_MAX
  }

  predicate IsHexDigit(c: char) {
    '0' <= c <= '9' || 'a' <= c <= 'f'
  }

  predicate IsHex32(s: string) {
    |s| == 32 && forall i :: 0 <= i < |s| ==> IsHexDigit(s[i])
  }

  predicate IsIncarnation(v: Js) {
    v.Text? && IsHex32(v.text)
  }

  // ---- rules ----------------------------------------------------------------

  datatype Rule = WrongKind | Negative | Fractional | OutOfRange | Malformed

  datatype Kind = U8 | U32 | U64 | I64 | Incarnation

  datatype FieldSpec = FieldSpec(field: string, kind: Kind, value: Js)

  datatype Fault = Fault(field: string, rule: Rule)

  function FieldFault(kind: Kind, v: Js): Option<Rule> {
    match kind
    case U8 => UintFault(v, U8_MAX)
    case U32 => UintFault(v, U32_MAX)
    case U64 =>
      if !v.Big? then Some(WrongKind)
      else if v.big < 0 then Some(Negative)
      else if v.big > U64_MAX then Some(OutOfRange)
      else None
    case I64 =>
      if !v.Big? then Some(WrongKind)
      else if v.big < I64_MIN || v.big > I64_MAX then Some(OutOfRange)
      else None
    case Incarnation => if IsIncarnation(v) then None else Some(Malformed)
  }

  function UintFault(v: Js, max: nat): Option<Rule> {
    if !v.Num? && !v.NonFinite? then Some(WrongKind)
    else if !IsInteger(v) then Some(Fractional)
    else if v.value < 0.0 then Some(Negative)
    else if v.value > max as real then Some(OutOfRange)
    else None
  }

  predicate Accepts(kind: Kind, v: Js) {
    match kind
    case U8 => IsUintInRange(v, U8_MAX)
    case U32 => IsUintInRange(v, U32_MAX)
    case U64 => IsU64(v)
    case I64 => IsI64(v)
    case Incarnation => IsIncarnation(v)
  }

  function FirstFaultOf(spec: seq<FieldSpec>): Option<Fault> {
    if spec == [] then None
    else
      match FieldFault(spec[0].kind, spec[0].value)
      case Some(rule) => Some(Fault(spec[0].field, rule))
      case None => FirstFaultOf(spec[1..])
  }

  method FirstFault(spec: seq<FieldSpec>) returns (fault: Option<Fault>)
    ensures fault == FirstFaultOf(spec)
  {
    for i := 0 to |spec|
      invariant FirstFaultOf(spec) == FirstFaultOf(spec[i..])
    {
      var rule := FieldFault(spec[i].kind, spec[i].value);
      assert spec[i..][1..] == spec[i + 1..];
      if rule.Some? {
        return Some(Fault(spec[i].field, rule.value));
      }
    }
    return None;
  }

  /** The fault reported is the first one there is: everything before it is
      accepted, and nothing is reported exactly when everything is accepted.
      The rules agree with the range predicates. */
  lemma {:induction false} FirstFaultIsFirst(spec: seq<FieldSpec>)
    ensures FirstFaultOf(spec).None? <==> forall i :: 0 <= i < |spec| ==> Accepts(spec[i].kind, spec[i].value)
    ensures FirstFaultOf(spec).Some? ==> exists i :: 0 <= i < |spec| && Blames(spec, i, FirstFaultOf(spec).value)
  {
    if spec != [] {
      assert FieldFault(spec[0].kind, spec[0].value).None? <==> Accepts(spec[0].kind, spec[0].value);
      FirstFaultIsFirst(spec[1..]);
      hide FieldFault, Accepts;
      assert forall i :: 0 < i < |spec| ==> spec[i] == spec[1..][i - 1];
      if FieldFault(spec[0].kind, spec[0].value).Some? {
        assert Blames(spec, 0, FirstFaultOf(spec).value);
      } else if FirstFaultOf(spec).Some? {
        var i :| 0 <= i < |spec[1..]| && Blames(spec[1..], i, FirstFaultOf(spec).value);
        assert Blames(spec, i + 1, FirstFaultOf(spec).value);
      }
    }
  }

  ghost predicate Blames(spec: seq<FieldSpec>, i: int, fault: Fault)
    requires 0 <= i < |spec|
  {
    && fault.field == spec[i].field
    && FieldFault(spec[i].kind, spec[i].value) == Some(fault.rule)
    && forall j :: 0 <= j < i ==> Accepts(spec[j].kind, spec[j].value)
  }
}
