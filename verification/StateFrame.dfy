/** The tagged-group frame and its in-place writer, for any list of groups:
    clients/web/state-abi.js. A DataView store past the end throws and writes
    nothing; a thrown RangeError is a false result. */
module StateFrame {
  import opened Wrappers
  import opened Bytes

  // ---- atoms ----------------------------------------------------------------

  const NAN: Word := [0x00, 0x00, 0xc0, 0x7f]
  const ZERO: Word := [0, 0, 0, 0]
  const ONE: Word := [0x00, 0x00, 0x80, 0x3f]

  const TEXT_INVALID_LEN: byte := 0xff

  /** A text argument: a string, nothing, or something else. */
  datatype Text = Absent | Str(s: string) | NotAString

  datatype Charset = Ident | Line

  predicate CharOk(c: char, charset: Charset) {
    || 'A' <= c <= 'Z'
    || '0' <= c <= '9'
    || c == ' '
    || c == '-'
    || (charset == Line && c == '.')
  }

  /** One store of a group encoder: an optional float, bytes and integers that
      wrap as DataView stores do, a text atom, or zeros. */
  datatype Atom =
    | Float(word: Option<Word>)
    | Octet(value: int)
    | Uint16(value: int)
    | Uint32(value: int)
    | TextAtom(text: Text, capacity: byte, charset: Charset)
    | Blank(length: nat)

  function LittleEndian(value: nat, width: nat): (b: seq<byte>)
    ensures |b| == width
    decreases width
  {
    if width == 0 then [] else [value % 256] + LittleEndian(value / 256, width - 1)
  }

  function Zeros(n: nat): (b: seq<byte>)
    ensures |b| == n
  {
    seq(n, _ => 0)
  }

  function Content(text: Text): string {
    if text.Str? then text.s else ""
  }

  predicate TextOk(text: Text, capacity: byte, charset: Charset) {
    && !text.NotAString?
    && |Content(text)| <= capacity
    && forall i :: 0 <= i < |Content(text)| ==> CharOk(Content(text)[i], charset)
  }

  function Codes(s: string, charset: Charset): (b: seq<byte>)
    requires forall i :: 0 <= i < |s| ==> CharOk(s[i], charset)
    ensures |b| == |s|
  {
    seq(|s|, i requires 0 <= i < |s| => Code(s[i]))
  }

  /** The character's code; no vetted character is outside a byte. */
  function Code(c: char): byte {
    if c as int < 256 then c as int else 0
  }

  function TextBytes(text: Text, capacity: byte, charset: Charset): (b: seq<byte>)
    ensures |b| == capacity + 1
  {
    if TextOk(text, capacity, charset) then
      var s := Content(text);
      [|s|] + Codes(s, charset) + Zeros(capacity - |s|)
    else [TEXT_INVALID_LEN] + Zeros(capacity)
  }

  function AtomBytes(a: Atom): seq<byte> {
    match a
    case Float(word) => word.GetOr(NAN)
    case Octet(v) => [v % 256]
    case Uint16(v) => LittleEndian(v % 0x1_0000, 2)
    case Uint32(v) => LittleEndian(v % 0x1_0000_0000, 4)
    case TextAtom(text, capacity, charset) => TextBytes(text, capacity, charset)
    case Blank(n) => Zeros(n)
  }

  function Payload(atoms: seq<Atom>): seq<byte> {
    if atoms == [] then [] else AtomBytes(atoms[0]) + Payload(atoms[1..])
  }

  lemma {:induction false} PayloadAppend(a: seq<Atom>, b: seq<Atom>)
    ensures Payload(a + b) == Payload(a) + Payload(b)
  {
    hide AtomBytes;
    Cons(a, b);
    if a != [] {
      PayloadAppend(a[1..], b);
      Assoc(AtomBytes(a[0]), Payload(a[1..]), Payload(b));
    }
  }

  lemma PayloadOne(atoms: seq<Atom>, a: Atom)
    ensures Payload(atoms + [a]) == Payload(atoms) + AtomBytes(a)
  {
    PayloadAppend(atoms, [a]);
    assert Payload([a]) == AtomBytes(a) + Payload([a][1..]);
    hide AtomBytes;
  }

  /** What a reader of a text atom sees. */
  function ReadText(b: seq<byte>): Option<string>
    requires |b| > 0
  {
    if b[0] > |b| - 1 then None
    else Some(seq(b[0], i requires 0 <= i < b[0] => b[1 + i] as char))
  }

  /** Vetted text comes back whole, absent text as the empty string, and
      everything else as the invalid marker: no text is cut or altered. */
  lemma TextComesBackOrIsMarked(text: Text, capacity: byte, charset: Charset)
    requires capacity < TEXT_INVALID_LEN
    ensures ReadText(TextBytes(text, capacity, charset)) ==
      if TextOk(text, capacity, charset) then Some(Content(text)) else None
  {
    if TextOk(text, capacity, charset) {
      var s := Content(text);
      var b := TextBytes(text, capacity, charset);
      assert b == [|s|] + Codes(s, charset) + Zeros(capacity - |s|);
      hide TextBytes, Zeros;
      CodesComeBack(s, charset, Zeros(capacity - |s|));
    }
  }

  lemma CodesComeBack(s: string, charset: Charset, rest: seq<byte>)
    requires |s| < 256 && forall i :: 0 <= i < |s| ==> CharOk(s[i], charset)
    ensures ReadText([|s|] + Codes(s, charset) + rest) == Some(s)
  {
    var b := [|s|] + Codes(s, charset) + rest;
    forall i | 0 <= i < |s|
      ensures b[1 + i] as char == s[i]
    {
      assert b[1 + i] == Codes(s, charset)[i];
    }
    hide Codes, CharOk;
    assert ReadText(b).value == s;
  }

  // ---- storing in place -----------------------------------------------------

  /** `s` with `b` written at `off`. */
  function Splice(s: seq<byte>, off: nat, b: seq<byte>): (r: seq<byte>)
    requires off + |b| <= |s|
    ensures |r| == |s|
  {
    s[..off] + b + s[off + |b|..]
  }

  lemma SpliceTwice(s: seq<byte>, off: nat, a: seq<byte>, b: seq<byte>)
    requires off + |a| + |b| <= |s|
    ensures Splice(Splice(s, off, a), off + |a|, b) == Splice(s, off, a + b)
    ensures Splice(Splice(s, off + |a|, b), off, a) == Splice(s, off, a + b)
  {
  }

  lemma SpliceNothing(s: seq<byte>, off: nat)
    requires off <= |s|
    ensures Splice(s, off, []) == s
  {
  }

  lemma SpliceOne(s: seq<byte>, off: nat, v: byte)
    requires off < |s|
    ensures s[off := v] == Splice(s, off, [v])
  {
  }

  /** Nothing before `off` differs. */
  predicate SameBefore(s: seq<byte>, t: seq<byte>, off: nat) {
    |s| == |t| && forall i :: 0 <= i < off && i < |s| ==> s[i] == t[i]
  }

  lemma SpliceKeeps(s: seq<byte>, off: nat, b: seq<byte>, before: nat)
    requires off + |b| <= |s| && before <= off
    ensures SameBefore(s, Splice(s, off, b), before)
  {
  }

  /** One DataView store. */
  method Store(view: array<byte>, off: nat, b: seq<byte>) returns (ok: bool)
    modifies view
    ensures ok <==> off + |b| <= view.Length
    ensures ok ==> view[..] == Splice(old(view[..]), off, b)
    ensures !ok ==> view[..] == old(view[..])
  {
    hide Splice;
    if off + |b| > view.Length {
      return false;
    }
    ghost var was := view[..];
    SpliceNothing(was, off);
    assert b[..0] == [];
    for i := 0 to |b|
      invariant view[..] == Splice(was, off, b[..i])
    {
      ghost var now := view[..];
      view[off + i] := b[i];
      assert view[..] == now[off + i := b[i]];
      SpliceOne(now, off + i, b[i]);
      SpliceTwice(was, off, b[..i], [b[i]]);
      assert b[..i + 1] == b[..i] + [b[i]];
    }
    assert b[..|b|] == b;
    return true;
  }

  method StoreZeros(view: array<byte>, off: nat, n: nat) returns (ok: bool)
    requires n > 0
    modifies view
    ensures ok <==> off + n <= view.Length
    ensures ok ==> view[..] == Splice(old(view[..]), off, Zeros(n))
    ensures SameBefore(old(view[..]), view[..], off)
  {
    hide Splice, SameBefore;
    ghost var was := view[..];
    ok := Store(view, off, [0]);
    if !ok {
      SameBeforeItself(was, off);
      return;
    }
    assert Zeros(1) == [0];
    for i := 1 to n
      invariant off + i <= view.Length && view[..] == Splice(was, off, Zeros(i))
      invariant ok
    {
      ok := Store(view, off + i, [0]);
      if !ok {
        SpliceKeeps(was, off, Zeros(i), off);
        return;
      }
      SpliceTwice(was, off, Zeros(i), [0]);
      assert Zeros(i) + [0] == Zeros(i + 1);
    }
    SpliceKeeps(was, off, Zeros(n), off);
  }

  lemma SameBeforeItself(s: seq<byte>, off: nat)
    ensures SameBefore(s, s, off)
  {
  }

  /** Stores characters up to the first that is not allowed. */
  method PutCodes(view: array<byte>, off: nat, content: string, charset: Charset) returns (bad: bool, n: nat)
    requires off + |content| <= view.Length
    modifies view
    ensures n <= |content| && forall j :: 0 <= j < n ==> CharOk(content[j], charset)
    ensures if bad then n < |content| && !CharOk(content[n], charset) else n == |content|
    ensures view[..] == Splice(old(view[..]), off, Codes(content[..n], charset))
  {
    hide Splice;
    ghost var was := view[..];
    SpliceNothing(was, off);
    n := 0;
    while n < |content|
      invariant 0 <= n <= |content|
      invariant forall j :: 0 <= j < n ==> CharOk(content[j], charset)
      invariant view[..] == Splice(was, off, Codes(content[..n], charset))
    {
      if !CharOk(content[n], charset) {
        return true, n;
      }
      SpliceTwice(was, off, Codes(content[..n], charset), [Code(content[n])]);
      assert Codes(content[..n + 1], charset) == Codes(content[..n], charset) + [Code(content[n])];
      var _ := Store(view, off + n, [Code(content[n])]);
      n := n + 1;
    }
    return false, n;
  }

  /** A text atom: zeros first, then the characters, and the length byte last;
      bad content is wiped and marked. */
  method PutTextAtom(view: array<byte>, off: nat, text: Text, capacity: byte, charset: Charset) returns (ok: bool)
    requires capacity > 0
    modifies view
    ensures ok <==> off + capacity + 1 <= view.Length
    ensures ok ==> view[..] == Splice(old(view[..]), off, TextBytes(text, capacity, charset))
    ensures SameBefore(old(view[..]), view[..], off)
  {
    hide Splice, SameBefore, CharOk, Zeros, Codes;
    ghost var was := view[..];
    var content := Content(text);
    var invalid := text.NotAString? || |content| > capacity;
    ok := StoreZeros(view, off + 1, capacity);
    if !ok {
      SameBeforeLess(was, view[..], off);
      return;
    }
    ghost var codes: seq<byte> := [];
    if !invalid {
      var n;
      invalid, n := PutCodes(view, off + 1, content, charset);
      assert !invalid ==> content[..n] == content;
      codes := Codes(content[..n], charset);
    } else {
      SpliceNothing(view[..], off + 1);
    }
    assert invalid <==> !TextOk(text, capacity, charset);
    assert view[..] == Splice(Splice(was, off + 1, Zeros(capacity)), off + 1, codes);
    if invalid {
      WipedIsMarked(was, off, codes, capacity);
      var _ := StoreZeros(view, off + 1, capacity);
      var _ := Store(view, off, [TEXT_INVALID_LEN]);
    } else {
      FilledIsText(was, off, codes, capacity, |content|);
      var _ := Store(view, off, [|content|]);
    }
    SpliceKeeps(was, off, TextBytes(text, capacity, charset), off);
  }

  lemma SameBeforeLess(s: seq<byte>, t: seq<byte>, off: nat)
    requires SameBefore(s, t, off + 1)
    ensures SameBefore(s, t, off)
  {
  }

  lemma WipedIsMarked(s: seq<byte>, off: nat, codes: seq<byte>, capacity: byte)
    requires off + capacity + 1 <= |s| && |codes| <= capacity
    ensures var was := Splice(Splice(s, off + 1, Zeros(capacity)), off + 1, codes);
      Splice(Splice(was, off + 1, Zeros(capacity)), off, [TEXT_INVALID_LEN])
        == Splice(s, off, [TEXT_INVALID_LEN] + Zeros(capacity))
  {
    Overwritten(s, off + 1, Zeros(capacity), codes);
    SpliceTwice(s, off, [TEXT_INVALID_LEN], Zeros(capacity));
    hide Splice;
  }

  /** A store over the same place wins. */
  lemma Overwritten(s: seq<byte>, off: nat, b: seq<byte>, codes: seq<byte>)
    requires off + |b| <= |s| && |codes| <= |b|
    ensures Splice(Splice(Splice(s, off, b), off, codes), off, b) == Splice(s, off, b)
  {
  }

  lemma FilledIsText(s: seq<byte>, off: nat, codes: seq<byte>, capacity: byte, n: byte)
    requires off + capacity + 1 <= |s| && |codes| == n <= capacity
    ensures Splice(Splice(Splice(s, off + 1, Zeros(capacity)), off + 1, codes), off, [n])
            == Splice(s, off, [n] + codes + Zeros(capacity - n))
  {
    var rest := Zeros(capacity - n);
    assert Zeros(capacity) == Zeros(n) + rest;
    Filled(s, off + 1, Zeros(n), rest, codes);
    SpliceTwice(s, off, [n], codes + rest);
    hide Splice;
    assert [n] + (codes + rest) == [n] + codes + rest;
  }

  lemma Filled(s: seq<byte>, off: nat, front: seq<byte>, rest: seq<byte>, codes: seq<byte>)
    requires |front| == |codes| && off + |front| + |rest| <= |s|
    ensures Splice(Splice(s, off, front + rest), off, codes) == Splice(s, off, codes + rest)
  {
  }

  // ---- groups ---------------------------------------------------------------

  /** What a state holds for one tag. `Overlong` is text its encoder refuses. */
  datatype Group = Missing | Present(atoms: seq<Atom>) | Overlong

  datatype Entry = Entry(tag: byte, group: Group)

  const STATE_ABI_VERSION: byte := 8

  predicate AtomOk(a: Atom) {
    (a.TextAtom? ==> 0 < a.capacity < TEXT_INVALID_LEN) && (a.Blank? ==> a.length > 0)
  }

  predicate EntryOk(e: Entry) {
    e.group.Present? ==>
      && e.group.atoms != []
      && |Payload(e.group.atoms)| < 0x1_0000
      && forall i :: 0 <= i < |e.group.atoms| ==> AtomOk(e.group.atoms[i])
  }

  datatype Tlv = Tlv(tag: byte, payload: seq<byte>)

  function PresentGroups(entries: seq<Entry>): (groups: seq<Tlv>)
    ensures |groups| <= |entries|
  {
    if entries == [] then []
    else
      var last := entries[|entries| - 1];
      var before := PresentGroups(entries[..|entries| - 1]);
      if last.group.Present? then before + [Tlv(last.tag, Payload(last.group.atoms))] else before
  }

  function TlvBytes(g: Tlv): (b: seq<byte>)
    ensures |b| == 3 + |g.payload|
  {
    [g.tag] + LittleEndian(|g.payload| % 0x1_0000, 2) + g.payload
  }

  function GroupBytes(groups: seq<Tlv>): seq<byte> {
    if groups == [] then [] else TlvBytes(groups[0]) + GroupBytes(groups[1..])
  }

  function FrameBytes(entries: seq<Entry>): seq<byte> {
    var groups := PresentGroups(entries);
    [STATE_ABI_VERSION, |groups| % 256] + GroupBytes(groups)
  }

  lemma {:induction false} GroupBytesAppend(a: seq<Tlv>, b: seq<Tlv>)
    ensures GroupBytes(a + b) == GroupBytes(a) + GroupBytes(b)
  {
    hide TlvBytes;
    Cons(a, b);
    if a != [] {
      GroupBytesAppend(a[1..], b);
      Assoc(TlvBytes(a[0]), GroupBytes(a[1..]), GroupBytes(b));
    }
  }

  lemma GroupBytesOne(groups: seq<Tlv>, g: Tlv)
    ensures GroupBytes(groups + [g]) == GroupBytes(groups) + TlvBytes(g)
  {
    GroupBytesAppend(groups, [g]);
    assert GroupBytes([g]) == TlvBytes(g) + GroupBytes([g][1..]);
    hide TlvBytes;
  }

  // ---- writing a frame in place ---------------------------------------------

  method PutAtom(view: array<byte>, off: nat, a: Atom) returns (ok: bool)
    requires AtomOk(a)
    modifies view
    ensures ok <==> off + |AtomBytes(a)| <= view.Length
    ensures ok ==> view[..] == Splice(old(view[..]), off, AtomBytes(a))
    ensures SameBefore(old(view[..]), view[..], off)
  {
    hide Splice, SameBefore, TextBytes, LittleEndian;
    ghost var was := view[..];
    match a {
      case TextAtom(text, capacity, charset) => ok := PutTextAtom(view, off, text, capacity, charset);
      case Blank(n) => ok := StoreZeros(view, off, n);
      case _ =>
        ok := Store(view, off, AtomBytes(a));
        SameBeforeItself(was, off);
        if ok {
          SpliceKeeps(was, off, AtomBytes(a), off);
        }
    }
  }

  /** Where an encoder stands after the stores `done`: each is in place, or one of
      them threw because it did not fit, and nothing before `off` changed. */
  ghost predicate Encoding(was: seq<byte>, now: seq<byte>, off: nat, done: seq<Atom>, thrown: bool) {
    && SameBefore(was, now, off)
    && (if thrown then off + |Payload(done)| > |was|
        else if done == [] then now == was
        else off + |Payload(done)| <= |was| && now == Splice(was, off, Payload(done)))
  }

  lemma EncodingStarts(was: seq<byte>, off: nat)
    ensures Encoding(was, was, off, [], false) && Payload([]) == []
  {
  }

  /** The next store of an encoder, at `off + rel`, where the one before ended;
      nothing once one of them threw. */
  method Put(view: array<byte>, off: nat, rel: nat, a: Atom, threw: bool, ghost was: seq<byte>, ghost done: seq<Atom>)
    returns (thrown: bool, ghost next: seq<Atom>)
    requires AtomOk(a) && rel == |Payload(done)| && Encoding(was, view[..], off, done, threw)
    modifies view
    ensures next == done + [a] && |Payload(next)| == rel + |AtomBytes(a)|
    ensures Encoding(was, view[..], off, next, thrown)
  {
    hide Splice, SameBefore, AtomBytes, AtomOk, Payload;
    next := done + [a];
    PayloadOne(done, a);
    if threw {
      return true, next;
    }
    ghost var now := view[..];
    if off <= |was| {
      SpliceNothing(was, off);
      EncodingStarts(was, off);
    }
    var ok := PutAtom(view, off + rel, a);
    AlsoSameBefore(was, now, view[..], off, off + rel);
    if ok {
      SpliceTwice(was, off, Payload(done), AtomBytes(a));
    }
    return !ok, next;
  }

  lemma AlsoSameBefore(s: seq<byte>, t: seq<byte>, u: seq<byte>, off: nat, at: nat)
    requires SameBefore(s, t, off) && SameBefore(t, u, at) && off <= at
    ensures SameBefore(s, u, off)
  {
  }

  predicate NoneOverlong(entries: seq<Entry>) {
    forall i :: 0 <= i < |entries| ==> !entries[i].group.Overlong?
  }

  lemma NoGroups()
    ensures GroupBytes([]) == []
  {
  }

  lemma {:induction false} PrefixIsShorter(entries: seq<Entry>, n: nat)
    requires n <= |entries|
    ensures |GroupBytes(PresentGroups(entries[..n]))| <= |GroupBytes(PresentGroups(entries))|
    decreases |entries|
  {
    if n < |entries| {
      var front, last := entries[..|entries| - 1], entries[|entries| - 1];
      assert front[..n] == entries[..n];
      PrefixIsShorter(front, n);
      if last.group.Present? {
        GroupBytesOne(PresentGroups(front), Tlv(last.tag, Payload(last.group.atoms)));
      }
      hide GroupBytes, Payload;
    } else {
      assert entries[..n] == entries;
    }
  }

  lemma HeaderBytes(s: seq<byte>, g: seq<byte>)
    requires 2 + |g| <= |s|
    ensures Splice(s, 0, [STATE_ABI_VERSION, 0] + g)[..2] == [STATE_ABI_VERSION, 0]
  {
  }

  lemma HeaderKept(s: seq<byte>, t: seq<byte>, off: nat)
    requires SameBefore(s, t, off) && 2 <= off && 2 <= |s|
    ensures t[..2] == s[..2]
  {
  }

  /** A group is stored payload first, then its tag and length. */
  lemma TlvStored(s: seq<byte>, off: nat, tag: byte, payload: seq<byte>)
    requires off + 3 + |payload| <= |s|
    ensures var length := LittleEndian(|payload| % 0x1_0000, 2);
      Splice(Splice(Splice(s, off + 3, payload), off, [tag]), off + 1, length)
        == Splice(s, off, TlvBytes(Tlv(tag, payload)))
  {
    var length := LittleEndian(|payload| % 0x1_0000, 2);
    SpliceTwice(Splice(s, off + 3, payload), off, [tag], length);
    SpliceTwice(s, off, [tag] + length, payload);
    hide Splice, LittleEndian;
  }

  lemma CountStored(s: seq<byte>, count: byte, g: seq<byte>)
    requires 2 + |g| <= |s|
    ensures Splice(Splice(s, 0, [STATE_ABI_VERSION, 0] + g), 1, [count]) == Splice(s, 0, [STATE_ABI_VERSION, count] + g)
  {
  }

  // ---- reading a frame ------------------------------------------------------

  datatype Parsed = Parsed(groups: seq<Tlv>, consumed: nat)

  function TlvEnd(b: seq<byte>): nat
    requires |b| >= 3
  {
    3 + (b[1] as int) + 256 * (b[2] as int)
  }

  function ReadGroups(b: seq<byte>, count: nat): Option<Parsed>
    decreases count
  {
    if count == 0 then Some(Parsed([], 0))
    else if |b| < 3 then None
    else
      var end := TlvEnd(b);
      if |b| < end then None
      else
        match ReadGroups(b[end..], count - 1)
        case None => None
        case Some(rest) => Some(Parsed([Tlv(b[0], b[3..end])] + rest.groups, end + rest.consumed))
  }

  /** A tag, length and value reading of a frame. */
  function ParseFrame(b: seq<byte>): Option<Parsed> {
    if |b| < 2 || b[0] != STATE_ABI_VERSION then None
    else
      match ReadGroups(b[2..], b[1])
      case None => None
      case Some(rest) => Some(Parsed(rest.groups, 2 + rest.consumed))
  }

  lemma ReadOne(g: Tlv, rest: seq<byte>)
    requires |g.payload| < 0x1_0000
    ensures var b := TlvBytes(g) + rest;
      && |b| >= 3 && b[0] == g.tag
      && TlvEnd(b) == |TlvBytes(g)|
      && b[3..|TlvBytes(g)|] == g.payload && b[|TlvBytes(g)|..] == rest
  {
    var length := LittleEndian(|g.payload| % 0x1_0000, 2);
    TwoOctets(|g.payload|);
    hide LittleEndian;
    TlvParts(g.tag, length, g.payload, rest);
  }

  lemma TwoOctets(n: nat)
    requires n < 0x1_0000
    ensures LittleEndian(n % 0x1_0000, 2)[0] as int + 256 * (LittleEndian(n % 0x1_0000, 2)[1] as int) == n
  {
    assert LittleEndian(n, 2) == [n % 256] + LittleEndian(n / 256, 1);
    assert LittleEndian(n / 256, 1) == [n / 256 % 256] + LittleEndian(n / 256 / 256, 0);
  }

  lemma TlvParts(tag: byte, length: seq<byte>, payload: seq<byte>, rest: seq<byte>)
    requires |length| == 2
    ensures var t := [tag] + length + payload;
      && (t + rest)[0] == tag && (t + rest)[1] == length[0] && (t + rest)[2] == length[1]
      && (t + rest)[3..|t|] == payload && (t + rest)[|t|..] == rest
  {
  }

  lemma ReadStep(g: Tlv, rest: seq<byte>, count: nat)
    requires |g.payload| < 0x1_0000 && count > 0
    ensures ReadGroups(TlvBytes(g) + rest, count) ==
      match ReadGroups(rest, count - 1)
      case None => None
      case Some(later) => Some(Parsed([g] + later.groups, |TlvBytes(g)| + later.consumed))
  {
    ReadOne(g, rest);
    hide TlvBytes, TlvEnd;
  }

  /** Reading what was written returns the groups, whatever follows. */
  lemma {:induction false} GroupsReturn(groups: seq<Tlv>, rest: seq<byte>)
    requires forall i :: 0 <= i < |groups| ==> |groups[i].payload| < 0x1_0000
    ensures ReadGroups(GroupBytes(groups) + rest, |groups|) == Some(Parsed(groups, |GroupBytes(groups)|))
  {
    hide TlvBytes, GroupBytes, ReadGroups;
    if groups == [] {
      ReadsNone(rest);
    } else {
      var g, later := groups[0], groups[1..];
      GroupBytesFirst(groups);
      GroupsReturn(later, rest);
      Assoc(TlvBytes(g), GroupBytes(later), rest);
      OneMoreGroup(g, groups, GroupBytes(later) + rest, |GroupBytes(later)|);
    }
  }

  lemma ReadsNone(rest: seq<byte>)
    ensures GroupBytes([]) == [] && ReadGroups(rest, 0) == Some(Parsed([], 0))
    ensures GroupBytes([]) + rest == rest
  {
  }

  lemma OneMoreGroup(g: Tlv, groups: seq<Tlv>, rest: seq<byte>, length: nat)
    requires groups != [] && groups[0] == g && |g.payload| < 0x1_0000
    requires ReadGroups(rest, |groups| - 1) == Some(Parsed(groups[1..], length))
    ensures ReadGroups(TlvBytes(g) + rest, |groups|) == Some(Parsed(groups, |TlvBytes(g)| + length))
  {
    hide TlvBytes, ReadGroups;
    ReadStep(g, rest, |groups|);
    assert [g] + groups[1..] == groups;
  }

  lemma GroupBytesFirst(groups: seq<Tlv>)
    requires groups != []
    ensures GroupBytes(groups) == TlvBytes(groups[0]) + GroupBytes(groups[1..])
  {
  }

  lemma {:induction false} PresentIsSmall(entries: seq<Entry>)
    requires forall i :: 0 <= i < |entries| ==> EntryOk(entries[i])
    ensures forall i :: 0 <= i < |PresentGroups(entries)| ==> |PresentGroups(entries)[i].payload| < 0x1_0000
  {
    hide Payload;
    if entries != [] {
      PresentIsSmall(entries[..|entries| - 1]);
    }
  }

  /** A frame reads back as exactly its present groups, and as long as it is. */
  lemma FrameReturns(entries: seq<Entry>, rest: seq<byte>)
    requires |entries| < 256 && forall i :: 0 <= i < |entries| ==> EntryOk(entries[i])
    ensures ParseFrame(FrameBytes(entries) + rest) == Some(Parsed(PresentGroups(entries), |FrameBytes(entries)|))
  {
    hide PresentGroups, GroupBytes, ReadGroups, ParseFrame, FrameBytes, EntryOk;
    var groups := PresentGroups(entries);
    PresentIsSmall(entries);
    GroupsReturn(groups, rest);
    FrameIs(entries);
    ParseIs(|groups|, GroupBytes(groups), rest, FrameBytes(entries));
  }

  lemma FrameIs(entries: seq<Entry>)
    requires |entries| < 256
    ensures FrameBytes(entries) == [STATE_ABI_VERSION, |PresentGroups(entries)|] + GroupBytes(PresentGroups(entries))
  {
    assert |PresentGroups(entries)| % 256 == |PresentGroups(entries)|;
    hide PresentGroups, GroupBytes;
  }

  lemma ParseIs(count: byte, body: seq<byte>, rest: seq<byte>, frame: seq<byte>)
    requires frame == [STATE_ABI_VERSION, count] + body
    ensures |frame| == 2 + |body|
    ensures ParseFrame(frame + rest) ==
      match ReadGroups(body + rest, count)
      case None => None
      case Some(later) => Some(Parsed(later.groups, 2 + later.consumed))
  {
    hide ReadGroups;
    assert (frame + rest)[2..] == body + rest;
  }

  /** The header a failed write leaves is that of the empty frame. */
  lemma FailedWriteIsEmpty(b: seq<byte>)
    requires |b| >= 2 && b[..2] == [STATE_ABI_VERSION, 0]
    ensures ParseFrame(b) == Some(Parsed([], 2))
  {
    assert b[0] == b[..2][0] && b[1] == b[..2][1];
  }

  predicate Ascending(groups: seq<Tlv>) {
    forall i, j :: 0 <= i < j < |groups| ==> groups[i].tag < groups[j].tag
  }

  predicate TagsAscend(entries: seq<Entry>) {
    forall i, j :: 0 <= i < j < |entries| ==> entries[i].tag < entries[j].tag
  }

  predicate Wrote(e: Entry, g: Tlv) {
    e.group.Present? && g == Tlv(e.tag, Payload(e.group.atoms))
  }

  /** The groups of a frame are those of the entries that are present. */
  lemma {:induction false} PresentComesFrom(entries: seq<Entry>, g: Tlv)
    ensures g in PresentGroups(entries) <==> exists i :: 0 <= i < |entries| && Wrote(entries[i], g)
  {
    hide Payload;
    if entries != [] {
      var front, last := entries[..|entries| - 1], entries[|entries| - 1];
      PresentComesFrom(front, g);
      assert g in PresentGroups(entries) <==> g in PresentGroups(front) || Wrote(last, g);
      hide PresentGroups, Wrote;
      if i :| 0 <= i < |entries| && Wrote(entries[i], g) {
        assert i < |front| ==> front[i] == entries[i];
      }
      if i :| 0 <= i < |front| && Wrote(front[i], g) {
        assert entries[i] == front[i];
      }
    }
  }

  /** Entries in tag order give groups in tag order. */
  lemma {:induction false} PresentAscend(entries: seq<Entry>)
    requires TagsAscend(entries)
    ensures Ascending(PresentGroups(entries))
  {
    hide Payload;
    if entries != [] {
      var front, last := entries[..|entries| - 1], entries[|entries| - 1];
      PresentAscend(front);
      forall g | g in PresentGroups(front)
        ensures g.tag < last.tag
      {
        PresentComesFrom(front, g);
        var i :| 0 <= i < |front| && Wrote(front[i], g);
        assert entries[i] == front[i];
      }
    }
  }
}
