/** Wrapping serial numbers as section 3.2 of RFC 1982 compares them: the u32
    form of clients/web/telemetry-ingress.js and the u64 form of
    adapters/aviate/src/shm.rs. `half` is half the number of values. */
module Serial {

  const HALF_U32: nat := 0x8000_0000
  const HALF_U64: nat := 0x8000_0000_0000_0000

  /** `candidate - current`, wrapped. */
  function Distance(candidate: nat, current: nat, half: nat): (d: nat)
    requires half > 0
    ensures d < 2 * half
  {
    (candidate - current) % (2 * half)
  }

  predicate IsNewer(candidate: nat, current: nat, half: nat)
    requires half > 0
  {
    var distance := Distance(candidate, current, half);
    distance != 0 && distance < half
  }

  /** Of two distinct values one is newer than the other, unless they are
      exactly half the range apart, when neither is. */
  lemma ExactlyOneIsNewer(a: nat, b: nat, half: nat)
    requires a < 2 * half && b < 2 * half
    ensures IsNewer(a, b, half) && IsNewer(b, a, half) ==> false
    ensures IsNewer(a, b, half) || IsNewer(b, a, half) <==> a != b && a - b != half && b - a != half
  {
    DistanceIs(a, b, half);
    DistanceIs(b, a, half);
  }

  lemma DistanceIs(a: nat, b: nat, half: nat)
    requires a < 2 * half && b < 2 * half
    ensures Distance(a, b, half) == if a >= b then a - b else a - b + 2 * half
  {
    var m := 2 * half;
    if a >= b {
      Remainder(a - b, 0, m);
    } else {
      Remainder(a - b, -1, m);
    }
  }

  lemma Remainder(x: int, q: int, m: int)
    requires m > 0 && 0 <= x - q * m < m
    ensures x % m == x - q * m
  {
    var k := x / m;
    assert x == k * m + x % m;
    if k > q {
      assert (k - q) * m >= m by { Larger(k - q, m); }
    } else if k < q {
      assert (q - k) * m >= m by { Larger(q - k, m); }
    }
  }

  lemma Larger(k: int, m: int)
    requires k > 0 && m > 0
    ensures k * m >= m
  {
  }

  // ---- chains ---------------------------------------------------------------

  /** Each value is newer than the one before. */
  ghost predicate Chain(s: seq<nat>, half: nat)
    requires half > 0
  {
    && (forall i :: 0 <= i < |s| ==> s[i] < 2 * half)
    && (forall i :: 0 < i < |s| ==> IsNewer(s[i], s[i - 1], half))
  }

  lemma ChainSlice(s: seq<nat>, i: nat, j: nat, half: nat)
    requires half > 0 && i <= j <= |s| && Chain(s, half)
    ensures Chain(s[i..j], half)
  {
    hide IsNewer;
    var t := s[i..j];
    forall k | 0 < k < |t|
      ensures IsNewer(t[k], t[k - 1], half)
    {
      assert t[k] == s[i + k] && t[k - 1] == s[i + k - 1];
    }
  }

  /** The forward distance travelled along the chain. */
  function Travelled(s: seq<nat>, half: nat): nat
    requires half > 0
  {
    if |s| < 2 then 0 else Travelled(s[..|s| - 1], half) + Distance(s[|s| - 1], s[|s| - 2], half)
  }

  /** How often the chain passed zero. */
  function Wraps(s: seq<nat>): nat {
    if |s| < 2 then 0 else Wraps(s[..|s| - 1]) + (if s[|s| - 1] < s[|s| - 2] then 1 else 0)
  }

  lemma Step(front: nat, wraps: nat, m: nat)
    ensures (wraps + 1) * m == wraps * m + m
    ensures (front + 1) * m == front * m + m
  {
  }

  /** A chain ends where the travelled distance takes it, modulo the range, and
      each step is forward and shorter than half of it. */
  lemma {:induction false} ChainTravels(s: seq<nat>, half: nat)
    requires half > 0 && |s| > 0 && Chain(s, half)
    ensures s[0] + Travelled(s, half) == s[|s| - 1] + Wraps(s) * (2 * half)
    ensures |s| - 1 <= Travelled(s, half) <= (|s| - 1) * (half - 1)
  {
    if |s| > 1 {
      var n := |s| - 1;
      var front := s[..n];
      ChainTravels(front, half);
      DistanceIs(s[n], s[n - 1], half);
      assert IsNewer(s[n], s[n - 1], half);
      Step(0, Wraps(front), 2 * half);
      Step(n - 1, 0, half - 1);
      assert Travelled(s, half) == Travelled(front, half) + Distance(s[n], s[n - 1], half);
      assert Wraps(s) == Wraps(front) + (if s[n] < s[n - 1] then 1 else 0);
      assert front[n - 1] == s[n - 1] && front[0] == s[0];
      hide Chain, Travelled, Wraps, Distance;
    }
  }

  /** A chain that returns to a value it held has gone all the way round, at
      least once and a whole number of times, so at least two other values lie
      between. */
  lemma ReturningGoesAllTheWayRound(s: seq<nat>, half: nat)
    requires half > 0 && |s| > 1 && Chain(s, half) && s[0] == s[|s| - 1]
    ensures Wraps(s) > 0 && Travelled(s, half) == Wraps(s) * (2 * half)
    ensures |s| >= 4
  {
    ChainTravels(s, half);
    hide Wraps, Travelled, Chain;
    if Wraps(s) > 0 {
      Larger(Wraps(s), 2 * half);
    }
    Short(|s| - 1, half);
  }

  lemma Short(k: nat, half: nat)
    requires half > 0
    ensures k <= 2 ==> k * (half - 1) < 2 * half
  {
  }

  /** Within one round of the range, the start of a chain looks newer than its end
      exactly when the chain has travelled more than half of it. */
  lemma StartLooksNewerExactlyPastHalf(s: seq<nat>, half: nat)
    requires half > 0 && |s| > 0 && Chain(s, half) && Travelled(s, half) < 2 * half
    ensures IsNewer(s[0], s[|s| - 1], half) <==> Travelled(s, half) > half
    ensures s[0] == s[|s| - 1] <==> |s| == 1
  {
    ChainTravels(s, half);
    DistanceIs(s[0], s[|s| - 1], half);
    OneRound(s[0], s[|s| - 1], Travelled(s, half), Wraps(s), 2 * half);
    hide Chain, Travelled, Wraps, Distance;
  }

  lemma OneRound(first: nat, last: nat, travelled: nat, wraps: nat, m: nat)
    requires first < m && last < m && travelled < m && first + travelled == last + wraps * m
    ensures wraps <= 1 && wraps * m == if wraps == 0 then 0 else m
  {
    if wraps >= 2 {
      Larger(wraps - 1, m);
      Step(wraps - 1, 0, m);
    }
  }
}
