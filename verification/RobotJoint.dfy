// The joint table and the exact integer conversions between absolute encoder
// counts and thousandths of a degree.
module RobotJoint {
  import opened Words

  const JOINT_COUNT := 6
  const COUNTS_PER_REV := 13238272
  const MDEG_PER_REV := 360000

  datatype Config = Config(slave: int, axis: int, direction: int, zeroPosition: I32)

  const TABLE: seq<Config> := [
    Config(1, 2, 1, 226000),
    Config(1, 1, 1, 260000),
    Config(2, 1, 1, 1666230),
    Config(2, 2, 1, 1960000),
    Config(3, 1, 1, 1713600),
    Config(3, 2, 1, 2890000)]

  function GetConfig(joint: int): Option<Config> {
    if 0 <= joint < JOINT_COUNT then Some(TABLE[joint]) else None
  }

  // Round half away from zero; `/` is applied to non-negative operands only, where
  // Euclidean and truncating division agree.
  function DivideRounded(numerator: int, denominator: int): int
    requires denominator > 0
  {
    if numerator >= 0 then (numerator + denominator / 2) / denominator
    else -((-numerator + denominator / 2) / denominator)
  }

  predicate FitsI32(x: int) { -0x8000_0000 <= x < 0x8000_0000 }

  predicate FitsI64(x: int) { -0x8000_0000_0000_0000 <= x < 0x8000_0000_0000_0000 }

  function RawToMilliDegree(joint: int, raw: I32): Option<I32> {
    match GetConfig(joint)
    case None => None
    case Some(config) =>
      var relative := (raw - config.zeroPosition) * config.direction;
      var result := DivideRounded(relative * MDEG_PER_REV, COUNTS_PER_REV);
      if FitsI32(result) then Some(result) else None
  }

  function MilliDegreeToRaw(joint: int, angle: I32): Option<I32> {
    match GetConfig(joint)
    case None => None
    case Some(config) =>
      var relative := DivideRounded(angle * COUNTS_PER_REV, MDEG_PER_REV) * config.direction;
      var result := config.zeroPosition + relative;
      if FitsI32(result) then Some(result) else None
  }

  // ------------------------------------------------------------------- the table

  // Every drive axis of the three slaves belongs to exactly one joint.
  lemma EveryAxisHasOneJoint(slave: int, axis: int)
    requires 1 <= slave <= 3 && 1 <= axis <= 2
    ensures exists j :: 0 <= j < JOINT_COUNT && TABLE[j].slave == slave && TABLE[j].axis == axis
    ensures forall i, j :: 0 <= i < JOINT_COUNT && 0 <= j < JOINT_COUNT && i != j ==>
              TABLE[i].slave != TABLE[j].slave || TABLE[i].axis != TABLE[j].axis
  {
    var j := if slave == 1 then 2 - axis else 2 * slave - 3 + axis;
    assert TABLE[j].slave == slave && TABLE[j].axis == axis;
  }

  // The angles, in thousandths of a degree, that a joint's raw count can express.
  datatype Span = Span(lowest: int, highest: int)

  const SPANS: seq<Span> := [
    Span(-58404561, 58392270),
    Span(-58405486, 58391345),
    Span(-58443727, 58353104),
    Span(-58451715, 58345115),
    Span(-58445015, 58351816),
    Span(-58477006, 58319825)
  ]

  // ----------------------------------------------------------------- the arithmetic

  // A rounded quotient is off by at most half a unit.
  lemma RoundingError(n: int, d: int)
    requires d > 0 && d % 2 == 0
    ensures -d <= 2 * (DivideRounded(n, d) * d - n) <= d
  {
    var m := if n >= 0 then n else -n;
    var q := (m + d / 2) / d;
    assert (m + d / 2) == q * d + (m + d / 2) % d;
  }

  // A half is rounded away from zero, on either side.
  lemma HalfAwayFromZero(n: int, d: int)
    requires d > 0 && d % 2 == 0
    ensures DivideRounded(-n, d) == -DivideRounded(n, d)
    ensures n >= 0 ==> -d < 2 * (DivideRounded(n, d) * d - n) <= d
  {
    var m := if n >= 0 then n else -n;
    var q := (m + d / 2) / d;
    assert m + d / 2 == q * d + (m + d / 2) % d;
  }

  // Reading an encoder never fails, and no intermediate value leaves int64.
  lemma ReadingNeverFails(joint: int, raw: I32)
    requires 0 <= joint < JOINT_COUNT
    ensures RawToMilliDegree(joint, raw).Some?
    ensures FitsI64((raw - TABLE[joint].zeroPosition) * TABLE[joint].direction * MDEG_PER_REV + COUNTS_PER_REV)
    ensures FitsI64((raw - TABLE[joint].zeroPosition) * TABLE[joint].direction * MDEG_PER_REV - COUNTS_PER_REV)
  {
    var relative := raw - TABLE[joint].zeroPosition;
    RoundingError(relative * MDEG_PER_REV, COUNTS_PER_REV);
  }

  // A commanded angle is refused exactly outside its joint's span, about 162 revolutions
  // to either side, and no intermediate value leaves int64.
  lemma CommandFailsOnlyFarAway(joint: int, angle: I32)
    requires 0 <= joint < JOINT_COUNT
    ensures FitsI64(angle * COUNTS_PER_REV + MDEG_PER_REV) && FitsI64(angle * COUNTS_PER_REV - MDEG_PER_REV)
    ensures MilliDegreeToRaw(joint, angle).Some? <==> SPANS[joint].lowest <= angle <= SPANS[joint].highest
  {
  }

  // A count is finer than a thousandth of a degree, so every angle of the span survives the
  // trip, and the others do not start it.
  lemma AngleRoundTrip(joint: int, angle: I32)
    requires 0 <= joint < JOINT_COUNT
    ensures
      var raw := MilliDegreeToRaw(joint, angle);
      if SPANS[joint].lowest <= angle <= SPANS[joint].highest
      then raw.Some? && RawToMilliDegree(joint, raw.value) == Some(angle)
      else raw == None
  {
    CommandFailsOnlyFarAway(joint, angle);
    if MilliDegreeToRaw(joint, angle).Some? {
      var raw := MilliDegreeToRaw(joint, angle).value;
      var relative := DivideRounded(angle * COUNTS_PER_REV, MDEG_PER_REV);
      var back := DivideRounded(relative * MDEG_PER_REV, COUNTS_PER_REV);
      assert TABLE[joint].direction == 1 && raw - TABLE[joint].zeroPosition == relative;
      RoundingError(angle * COUNTS_PER_REV, MDEG_PER_REV);
      RoundingError(relative * MDEG_PER_REV, COUNTS_PER_REV);
      assert back == angle;
    }
  }

  // The other way round the count comes back within 18, and the trip can only fail
  // for counts within 18 of the ends of int32.
  lemma CountRoundTrip(joint: int, raw: I32)
    requires 0 <= joint < JOINT_COUNT
    ensures RawToMilliDegree(joint, raw).Some?
    ensures var back := MilliDegreeToRaw(joint, RawToMilliDegree(joint, raw).value);
            && (back.Some? ==> -18 <= back.value - raw <= 18)
            && (-0x8000_0000 + 18 <= raw < 0x8000_0000 - 18 ==> back.Some?)
  {
    ReadingNeverFails(joint, raw);
    var angle := RawToMilliDegree(joint, raw).value;
    RoundingError((raw - TABLE[joint].zeroPosition) * MDEG_PER_REV, COUNTS_PER_REV);
    RoundingError(angle * COUNTS_PER_REV, MDEG_PER_REV);
  }

  // 18 is the best possible bound.
  lemma CountRoundTripIsTight()
    ensures exists raw: I32 ::
              var back := RawToMilliDegree(0, raw);
              back.Some? && MilliDegreeToRaw(0, back.value) == Some(raw - 18)
  {
    var raw: I32 := 226018;
    assert RawToMilliDegree(0, raw) == Some(0);
    assert MilliDegreeToRaw(0, 0) == Some(226000);
  }
}
