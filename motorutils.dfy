/**
 * Conversions of a Trinamic stepper motor between microsteps and user units, and the
 * two's-complement reading of the card's unsigned registers.
 *
 * A motor turns `stepCount` full steps per revolution, each full step has
 * `2^stepResolution` microsteps, a revolution moves `unitSize` units and position zero is
 * at `unitOffset` units. Arithmetic here is exact; see README for floats.
 */
module MotorUtils {
  import opened Wrappers

  /** The part of a motor configuration the conversions read. */
  datatype Conversion = Conversion(stepResolution: nat, stepCount: int, unitSize: real, unitOffset: real)

  datatype ArithmeticError = ZeroDivision | NegativeShiftCount

  /** `2 ** n`, also `1 << n`. */
  function Pow2(n: nat): (r: nat)
    ensures r >= 1
  {
    if n == 0 then 1 else 2 * Pow2(n - 1)
  }

  lemma {:induction false} Pow2Add(a: nat, b: nat)
    ensures Pow2(a + b) == Pow2(a) * Pow2(b)
    decreases a
  {
    if a > 0 {
      Pow2Add(a - 1, b);
    }
  }

  // ---------------------------------------------------------------- steps and units

  /** Microsteps per full step, `2 ** stepResolution`. */
  function PerFullStep(c: Conversion): (r: real)
    ensures r >= 1.0
  {
    Pow2(c.stepResolution) as real
  }

  /** `stepsToUnits`: microsteps / 2^resolution / stepCount * unitSize + unitOffset. */
  function StepsToUnits(microsteps: int, c: Conversion): (r: Result<real, ArithmeticError>)
    ensures c.stepCount == 0 <==> r == Err(ZeroDivision)
    ensures r.Ok? ==>
      r.value == microsteps as real / (PerFullStep(c) * c.stepCount as real) * c.unitSize + c.unitOffset
  {
    if c.stepCount == 0 then Err(ZeroDivision)
    else
      var perFullStep := microsteps as real / PerFullStep(c);
      var revolutions := perFullStep / c.stepCount as real;
      assert revolutions == microsteps as real / (PerFullStep(c) * c.stepCount as real) by {
        DivDiv(microsteps as real, PerFullStep(c), c.stepCount as real);
      }
      Ok(revolutions * c.unitSize + c.unitOffset)
  }

  /** Scaling and shifting, then undoing both, gives the value back. */
  lemma CancelScale(q: real, size: real, offset: real)
    requires size != 0.0
    ensures (q * size + offset - offset) / size == q
  {
  }

  /** Dividing and multiplying by the same number gives the value back. */
  lemma CancelDiv(x: real, p: real)
    requires p != 0.0
    ensures x / p * p == x
  {
  }

  /** Dividing twice is dividing by the product. */
  lemma DivDiv(x: real, a: real, b: real)
    requires a != 0.0 && b != 0.0
    ensures x / a / b == x / (a * b)
  {
  }

  /** Python's `round` on a float: to the nearest integer, ties to the even one. */
  function RoundHalfEven(x: real): (r: int)
    ensures x - 0.5 <= r as real <= x + 0.5
    ensures (r as real == x - 0.5 || r as real == x + 0.5) ==> r % 2 == 0
  {
    var f := x.Floor;
    var d := x - f as real;
    if d < 0.5 then f
    else if d > 0.5 then f + 1
    else if f % 2 == 0 then f
    else f + 1
  }

  /** An integer that is nearer than half a unit to `x` is the rounded value. */
  lemma RoundNearest(x: real, n: int)
    requires x - 0.5 < n as real < x + 0.5
    ensures RoundHalfEven(x) == n
  {
  }

  /** The exact microstep count for `units`: (units - offset) / unitSize * stepCount * 2^resolution. */
  function ExactSteps(units: real, c: Conversion): real
    requires c.unitSize != 0.0
  {
    (units - c.unitOffset) / c.unitSize * (c.stepCount as real * PerFullStep(c))
  }

  /** `unitsToSteps` for a number: round((units - offset) / unitSize * stepCount * 2^resolution). */
  function UnitsToSteps(units: real, c: Conversion): (r: Result<int, ArithmeticError>)
    ensures c.unitSize == 0.0 <==> r == Err(ZeroDivision)
    ensures r.Ok? ==> ExactSteps(units, c) - 0.5 <= r.value as real <= ExactSteps(units, c) + 0.5
  {
    if c.unitSize == 0.0 then Err(ZeroDivision) else Ok(RoundHalfEven(ExactSteps(units, c)))
  }

  /** Converting steps to units and back gives the steps, for any non-zero unit size and count. */
  lemma StepsUnitsRoundTrip(microsteps: int, c: Conversion)
    requires c.stepCount != 0 && c.unitSize != 0.0
    ensures StepsToUnits(microsteps, c).Ok?
    ensures UnitsToSteps(StepsToUnits(microsteps, c).value, c) == Ok(microsteps)
  {
    var p := PerFullStep(c) * c.stepCount as real;
    var u := StepsToUnits(microsteps, c).value;
    var q := microsteps as real / p;
    CancelScale(q, c.unitSize, c.unitOffset);
    CancelDiv(microsteps as real, p);
    assert c.stepCount as real * PerFullStep(c) == p;
    assert ExactSteps(u, c) == q * p;
    RoundNearest(ExactSteps(u, c), microsteps);
  }

  /** The offset itself is step zero, and step zero is the offset. */
  lemma OffsetIsZero(c: Conversion)
    requires c.stepCount != 0 && c.unitSize != 0.0
    ensures StepsToUnits(0, c) == Ok(c.unitOffset)
    ensures UnitsToSteps(c.unitOffset, c) == Ok(0)
  {
    RoundNearest(0.0, 0);
  }

  /** Resolution 3, 200 full steps per revolution, one unit per revolution. */
  const TestConversion := Conversion(3, 200, 1.0, 0.0)

  /** The values of the conversion tables, both ways, and the offset 5 check. */
  lemma ConversionTable()
    ensures StepsToUnits(0, TestConversion) == Ok(0.0)
    ensures StepsToUnits(100, TestConversion) == Ok(0.0625)
    ensures StepsToUnits(-21415, TestConversion) == Ok(-13.384375)
    ensures StepsToUnits(124123234, TestConversion) == Ok(77577.02125)
    ensures UnitsToSteps(0.0625, TestConversion) == Ok(100)
    ensures UnitsToSteps(-13.384375, TestConversion) == Ok(-21415)
    ensures UnitsToSteps(77577.02125, TestConversion) == Ok(124123234)
    ensures StepsToUnits(0, TestConversion.(unitOffset := 5.0)) == Ok(5.0)
    ensures UnitsToSteps(5.0, TestConversion.(unitOffset := 5.0)) == Ok(0)
  {
    assert PerFullStep(TestConversion) == 8.0;
    StepsUnitsRoundTrip(100, TestConversion);
    StepsUnitsRoundTrip(-21415, TestConversion);
    StepsUnitsRoundTrip(124123234, TestConversion);
    OffsetIsZero(TestConversion.(unitOffset := 5.0));
  }

  // ---------------------------------------------------------------- two's complement

  /** `toSignedInt(unsigned, size)`: subtract `1 << size` when the top bit is set. */
  function ToSignedInt(unsigned: int, size: int := 32): (r: Result<int, ArithmeticError>)
    ensures size < 1 <==> r == Err(NegativeShiftCount)
    ensures r.Ok? && unsigned < Pow2(size - 1) ==> r.value == unsigned
    ensures r.Ok? && unsigned >= Pow2(size - 1) ==> r.value == unsigned - Pow2(size)
  {
    if size < 1 then Err(NegativeShiftCount)
    else if unsigned >= Pow2(size - 1) then Ok(unsigned - Pow2(size))
    else Ok(unsigned)
  }

  /** An unsigned value of `size` bits becomes a signed one of the same residue and in range. */
  lemma SignedRange(unsigned: int, size: int)
    requires size >= 1 && 0 <= unsigned < Pow2(size)
    ensures ToSignedInt(unsigned, size).Ok?
    ensures -(Pow2(size - 1) as int) <= ToSignedInt(unsigned, size).value < Pow2(size - 1)
    ensures (ToSignedInt(unsigned, size).value - unsigned) % Pow2(size) == 0
  {
    Pow2Add(1, size - 1);
    var m: int := Pow2(size);
    if unsigned >= Pow2(size - 1) {
      assert ToSignedInt(unsigned, size).value - unsigned == -m;
      NegModSelf(m);
    }
  }

  lemma NegModSelf(m: int)
    requires m > 0
    ensures (-m) % m == 0
  {
    assert -m == (-1) * m + 0;
  }

  /** Reading back the two's-complement encoding of a signed value gives that value. */
  lemma SignedRoundTrip(signed: int, size: int)
    requires size >= 1 && -(Pow2(size - 1) as int) <= signed < Pow2(size - 1)
    ensures 0 <= signed % Pow2(size) < Pow2(size)
    ensures ToSignedInt(signed % Pow2(size), size) == Ok(signed)
  {
    Pow2Add(1, size - 1);
    var m: int := Pow2(size);
    if signed < 0 {
      ModBelow(signed, m);
    } else {
      ModInRange(signed, m);
    }
  }

  lemma ModInRange(x: int, m: int)
    requires m > 0 && 0 <= x < m
    ensures x % m == x
  {
    var d, r := x / m, x % m;
    assert x == d * m + r && 0 <= r < m;
  }

  lemma ModBelow(x: int, m: int)
    requires m > 0 && -m <= x < 0
    ensures x % m == x + m
  {
    var d, r := x / m, x % m;
    assert x == d * m + r && 0 <= r < m;
  }

  /** The 8-bit table and the 32-bit default. */
  lemma SignedTable()
    ensures ToSignedInt(0, 8) == Ok(0) && ToSignedInt(1, 8) == Ok(1) && ToSignedInt(126, 8) == Ok(126)
    ensures ToSignedInt(127, 8) == Ok(127) && ToSignedInt(128, 8) == Ok(-128) && ToSignedInt(129, 8) == Ok(-127)
    ensures ToSignedInt(254, 8) == Ok(-2) && ToSignedInt(255, 8) == Ok(-1)
    ensures ToSignedInt(0x1_0000_0000 - 12345) == Ok(-12345)
  {
    assert Pow2(7) == 128;
    Pow2Add(1, 7);
    Pow2Add(16, 15);
    Pow2Add(1, 31);
    assert Pow2(8) == 256;
    assert Pow2(16) == 0x1_0000;
    Pow2Add(16, 16);
  }
}
