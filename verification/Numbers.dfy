/** JavaScript's `Number(bigint)` for naturals: rounding to a 53-bit significand,
    ties to even, as IEEE 754 binary64 has it. */
module Numbers {

  datatype Number = Finite(value: nat) | Infinite

  const SIGNIFICAND_VALUES: nat := 0x20_0000_0000_0000

  const EXPONENT_LIMIT: nat := 1024

  function Power2(n: nat): (p: nat)
    ensures p > 0
  {
    if n == 0 then 1 else 2 * Power2(n - 1)
  }

  /** The distance between neighbouring Numbers around `v`. */
  function Unit(v: nat): (u: nat)
    ensures u > 0
  {
    if v < SIGNIFICAND_VALUES then 1 else 2 * Unit(v / 2)
  }

  function Nearest(v: nat): nat {
    var u := Unit(v);
    var below := v % u;
    if 2 * below < u || (2 * below == u && (v / u) % 2 == 0) then v - below else v - below + u
  }

  function ToNumber(v: nat): Number {
    if Nearest(v) < Power2(EXPONENT_LIMIT) then Finite(Nearest(v)) else Infinite
  }

  /** No set bit below the 53 leading ones, and in the range of a Number. */
  predicate Exact(v: nat) {
    v % Unit(v) == 0 && v < Power2(EXPONENT_LIMIT)
  }

  /** A natural survives exactly when it has no more than 53 significant bits. */
  lemma SurvivesExactlyWhenExact(v: nat)
    ensures ToNumber(v) == Finite(v) <==> Exact(v)
  {
    hide Unit, Power2;
  }

  /** The result is a multiple of the unit no further than half of it away. */
  lemma NearestIsNear(v: nat)
    ensures 2 * Nearest(v) <= 2 * v + Unit(v) && 2 * v <= 2 * Nearest(v) + Unit(v)
    ensures Nearest(v) == 0 <==> v == 0
  {
    if v < SIGNIFICAND_VALUES {
      assert Unit(v) == 1;
    } else {
      UnitIsSmaller(v);
    }
    hide Unit;
  }

  lemma {:induction false} UnitIsSmaller(v: nat)
    requires v > 0
    ensures Unit(v) <= v
  {
    if v >= SIGNIFICAND_VALUES {
      UnitIsSmaller(v / 2);
    }
  }

  lemma {:induction false} PowersGrow(few: nat, many: nat)
    requires few <= many
    ensures Power2(few) <= Power2(many)
    decreases many
  {
    if few < many {
      PowersGrow(few, many - 1);
    }
  }

  lemma LimitIsLarge()
    ensures Power2(EXPONENT_LIMIT) >= 0x100_0000_0000_0000
  {
    assert Power2(8) == 0x100;
    assert Power2(16) == 0x1_0000;
    assert Power2(24) == 0x100_0000;
    assert Power2(32) == 0x1_0000_0000;
    assert Power2(40) == 0x100_0000_0000;
    assert Power2(48) == 0x1_0000_0000_0000;
    assert Power2(56) == 0x100_0000_0000_0000;
    PowersGrow(56, EXPONENT_LIMIT);
    hide Power2;
  }

  /** Everything up to 2^53 survives. */
  lemma SmallSurvives(v: nat)
    requires v <= SIGNIFICAND_VALUES
    ensures Exact(v) && ToNumber(v) == Finite(v)
  {
    LimitIsLarge();
    if v == SIGNIFICAND_VALUES {
      assert Unit(v) == 2 * Unit(v / 2) == 2;
    } else {
      assert Unit(v) == 1;
    }
    SurvivesExactlyWhenExact(v);
    hide Unit, Power2;
  }

  /** The first natural that does not: 2^53 + 1 becomes 2^53. */
  lemma FirstToBeRounded()
    ensures ToNumber(0x20_0000_0000_0001) == Finite(0x20_0000_0000_0000) && !Exact(0x20_0000_0000_0001)
  {
    var v: nat := 0x20_0000_0000_0001;
    LimitIsLarge();
    assert Unit(v) == 2 * Unit(v / 2) == 2;
    assert v % 2 == 1 && v / 2 == 0x10_0000_0000_0000;
    hide Unit, Power2;
  }

  function ToNumbers(values: seq<nat>): (r: seq<Number>)
    ensures |r| == |values|
  {
    seq(|values|, i requires 0 <= i < |values| => ToNumber(values[i]))
  }
}
