/** Base 128 varints as clients/web/wire.js writes and reads them. */
module Varint {
  import opened Bytes

  // ---- specification --------------------------------------------------------

  /** The canonical base-128 encoding, least significant group first. */
  function VarintBytes(v: nat): (bs: seq<byte>)
    ensures |bs| >= 1
  {
    if v < 128 then [v] else [v % 128 + 128] + VarintBytes(v / 128)
  }

  datatype Reading = Reading(value: nat, next: nat)

  /** Reading past the end of a typed array yields `undefined`, which the bit
      operators of the reader turn into 0: a terminating group. */
  function OctetAt(view: seq<byte>, pos: nat): byte {
    if pos < |view| then view[pos] else 0
  }

  function ReadVarint(view: seq<byte>, offset: nat): (r: Reading)
    ensures offset < r.next
    decreases |view| - offset
  {
    var octet := OctetAt(view, offset);
    if octet < 128 then Reading(octet, offset + 1)
    else
      var rest := ReadVarint(view, offset + 1);
      Reading(octet - 128 + 128 * rest.value, rest.next)
  }

  // ---- the loops of the source ----------------------------------------------

  /** A plain JavaScript array that the writers push octets onto. */
  class ByteArray {
    var octets: seq<byte>

    constructor ()
      ensures octets == []
    {
      octets := [];
    }

    /** Pushes one varint; false stands for the RangeError on a negative value. */
    method WriteVarint(value: int) returns (ok: bool)
      modifies this
      ensures ok == (value >= 0)
      ensures octets == old(octets) + (if value >= 0 then VarintBytes(value) else [])
    {
      if value < 0 {
        return false;
      }
      var v: nat := value;
      ghost var written: seq<byte> := [];
      while true
        invariant octets == old(octets) + written
        invariant written + VarintBytes(v) == VarintBytes(value)
        decreases v
      {
        var low := v % 128;
        ghost var before := VarintBytes(v);
        v := v / 128;
        if v != 0 {
          octets := octets + [low + 128];
          assert before == [low + 128] + VarintBytes(v);
          ghost var grown := written + [low + 128];
          assert grown + VarintBytes(v) == written + before;
          written := grown;
        } else {
          octets := octets + [low];
          assert before == [low];
          return true;
        }
      }
    }

    method PushAll(payload: seq<byte>)
      modifies this
      ensures octets == old(octets) + payload
    {
      for i := 0 to |payload|
        invariant octets == old(octets) + payload[..i]
      {
        octets := octets + [payload[i]];
        assert payload[..i + 1] == payload[..i] + [payload[i]];
      }
    }
  }

  /** The reader's loop. Its groups never overlap, so the bitwise or of the
      source is an addition. */
  method ReadVarintBigInt(view: seq<byte>, offset: nat) returns (value: nat, next: nat)
    ensures Reading(value, next) == ReadVarint(view, offset)
  {
    hide ReadVarint;
    value, next := 0, offset;
    var unit: nat := 1;
    while true
      invariant ReadVarint(view, offset).next == ReadVarint(view, next).next
      invariant ReadVarint(view, offset).value == value + unit * ReadVarint(view, next).value
      decreases |view| - next
    {
      var octet := OctetAt(view, next);
      ReadOne(view, next);
      if octet < 128 {
        value, next := value + octet * unit, next + 1;
        return;
      }
      Distribute(unit, octet - 128, ReadVarint(view, next + 1).value);
      value, unit, next := value + (octet - 128) * unit, unit * 128, next + 1;
    }
  }

  lemma ReadOne(view: seq<byte>, pos: nat)
    ensures var octet := OctetAt(view, pos);
      ReadVarint(view, pos) ==
        if octet < 128 then Reading(octet, pos + 1)
        else Reading(octet - 128 + 128 * ReadVarint(view, pos + 1).value, ReadVarint(view, pos + 1).next)
  {
  }

  lemma Distribute(unit: nat, low: nat, high: nat)
    ensures unit * (low + 128 * high) == low * unit + (unit * 128) * high
  {
  }

  // ---- what the encoding promises -------------------------------------------

  /** Read-after-write for every natural, whatever precedes or follows it. */
  lemma {:induction false} ReadAfterWrite(v: nat, view: seq<byte>, offset: nat)
    requires offset <= |view| && VarintBytes(v) <= view[offset..]
    ensures ReadVarint(view, offset) == Reading(v, offset + |VarintBytes(v)|)
    decreases v
  {
    var bs := VarintBytes(v);
    assert view[offset] == view[offset..][0] == bs[0];
    if v >= 128 {
      assert bs[1..] == VarintBytes(v / 128);
      assert view[offset + 1..] == view[offset..][1..];
      ReadAfterWrite(v / 128, view, offset + 1);
    }
  }

  /** A reading that ended inside the view is not changed by appended octets. */
  lemma {:induction false} CompleteReadingIsStable(view: seq<byte>, offset: nat, more: seq<byte>)
    requires ReadVarint(view, offset).next <= |view|
    ensures ReadVarint(view + more, offset) == ReadVarint(view, offset)
    decreases |view| - offset
  {
    assert OctetAt(view + more, offset) == OctetAt(view, offset);
    if OctetAt(view, offset) >= 128 {
      CompleteReadingIsStable(view, offset + 1, more);
    }
  }

  /** The reader reports a position beyond the end exactly when every octet it
      had still announced another: a truncated varint is always recognisable. */
  lemma {:induction false} TruncatedReadingOvershoots(view: seq<byte>, offset: nat)
    requires offset <= |view|
    ensures ReadVarint(view, offset).next > |view| <==> (forall i :: offset <= i < |view| ==> view[i] >= 128)
    ensures ReadVarint(view, offset).next <= |view| + 1
    decreases |view| - offset
  {
    if offset < |view| && view[offset] >= 128 {
      TruncatedReadingOvershoots(view, offset + 1);
    }
  }

  /** No encoding is a proper prefix of another value's encoding. */
  lemma EncodingsArePrefixFree(v: nat, w: nat)
    requires VarintBytes(v) <= VarintBytes(w)
    ensures v == w
  {
    var view := VarintBytes(w);
    assert view[0..] == view;
    ReadAfterWrite(v, view, 0);
    ReadAfterWrite(w, view, 0);
  }
}
