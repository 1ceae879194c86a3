/** Option and Result, shared by every module. */
module Wrappers {

  datatype Option<+T> = None | Some(value: T) {
    function GetOr(default: T): T {
      match this
      case Some(v) => v
      case None => default
    }
  }

  datatype Result<+T, +E> = Success(value: T) | Failure(error: E) {
    predicate IsFailure() {
      Failure?
    }

    function PropagateFailure<U>(): Result<U, E>
      requires Failure?
    {
      Failure(error)
    }

    function Extract(): T
      requires Success?
    {
      value
    }
  }
}

/** Octets, typed-array slices, and the two-argument minimum. */
module Bytes {

  type byte = b: int | 0 <= b < 256

  /** Four octets of a binary32 number, as they travel. */
  type Word = w: seq<byte> | |w| == 4 witness [0, 0, 0, 0]

  /** Largest integer a JavaScript Number holds exactly, Number.MAX_SAFE_INTEGER. */
  const MAX_SAFE: nat := 0x1F_FFFF_FFFF_FFFF

  function Min(a: int, b: int): int {
    if a <= b then a else b
  }

  function Clamp(v: real, lo: real, hi: real): real {
    if v < lo then lo else if v > hi then hi else v
  }

  /** `Uint8Array.prototype.subarray` for non-negative bounds: both ends clamp to the length. */
  function Subarray<T>(s: seq<T>, start: nat, end: nat): seq<T> {
    var from := Min(start, |s|);
    var to := Min(end, |s|);
    if from <= to then s[from..to] else []
  }

  // Facts about appending, for sequences of anything.

  lemma Assoc<T>(a: seq<T>, b: seq<T>, c: seq<T>)
    ensures a + (b + c) == (a + b) + c
  {
  }

  lemma Cons<T>(a: seq<T>, b: seq<T>)
    ensures a == [] ==> a + b == b
    ensures a != [] ==> a + b != [] && (a + b)[0] == a[0] && (a + b)[1..] == a[1..] + b
  {
  }

  lemma Slices<T>(a: seq<T>, b: seq<T>, from: nat, to: nat)
    requires from <= to <= |a|
    ensures (a + b)[from..to] == a[from..to] && (a + b)[to..] == a[to..] + b
  {
  }

  function Concat<T>(parts: seq<seq<T>>): seq<T> {
    if parts == [] then [] else parts[0] + Concat(parts[1..])
  }

  lemma {:induction false} ConcatAppend<T>(a: seq<seq<T>>, b: seq<seq<T>>)
    ensures Concat(a + b) == Concat(a) + Concat(b)
  {
    Cons(a, b);
    if a != [] {
      ConcatAppend(a[1..], b);
      Assoc(a[0], Concat(a[1..]), Concat(b));
    }
  }
}
