/**
 * The actuation task: from a pair of signed speeds it sets each motor's
 * direction pin and PWM duty. A channel's direction is high exactly when its
 * speed is positive; its duty is max_duty * |speed| / 128 in u32 arithmetic.
 */
module Actuation {
  import opened Machine

  /**
   * `i8::abs` followed by `try_into::<u32>().unwrap()`. The absolute value of
   * -128 does not fit an i8: with overflow checks `abs` panics, without them
   * it gives -128 back and the conversion to u32 fails, so `unwrap` panics.
   * None stands for that panic.
   */
  function CheckedAbs(x: i8): (r: Option<u32>)
    ensures r.None? <==> x == -128
    ensures r.Some? ==> r.value <= 127 && (r.value == x || r.value == -x)
  {
    if x == -128 then None else if x < 0 then Some(-x) else Some(x)
  }

  /** For a magnitude of at most 127 the u32 product max_duty * magnitude cannot wrap. */
  lemma ProductFits(maxDuty: u16, magnitude: u32)
    requires magnitude <= 127
    ensures maxDuty * magnitude <= maxDuty * 127 <= 0xFFFF * 127 < U32_MODULUS
  {
  }

  /**
   * The duty for a speed of magnitude `magnitude`: the u32 product (taken
   * modulo 2^32, as u32 arithmetic is) divided by 128. The result is the
   * floor of the exact quotient, never reaches max_duty unless that is 0, and
   * so always fits the u16 the duty is converted to.
   */
  function Duty(maxDuty: u16, magnitude: u32): (d: nat)
    requires magnitude <= 127
    ensures d * 128 <= maxDuty * magnitude < (d + 1) * 128
    ensures d <= maxDuty && (maxDuty > 0 ==> d < maxDuty)
    ensures d < 0x1_0000
  {
    DutyBounds(maxDuty, magnitude);
    ((maxDuty * magnitude) % U32_MODULUS) / 128
  }

  lemma DutyBounds(maxDuty: u16, magnitude: u32)
    requires magnitude <= 127
    ensures (maxDuty * magnitude) % U32_MODULUS == maxDuty * magnitude
    ensures maxDuty > 0 ==> (maxDuty * magnitude) / 128 < maxDuty
  {
    ProductFits(maxDuty, magnitude);
    var d := (maxDuty * magnitude) / 128;
    MulMonotone(maxDuty, magnitude, 127);
    assert 128 * d <= maxDuty * 127;
    if maxDuty > 0 {
      assert 128 * d < 128 * maxDuty;
      MulCancel(128, d, maxDuty);
    }
  }

  /** A faster command never gives a smaller duty. */
  lemma DutyMonotone(maxDuty: u16, a: u32, b: u32)
    requires a <= b <= 127
    ensures Duty(maxDuty, a) <= Duty(maxDuty, b)
  {
    var da, db := Duty(maxDuty, a), Duty(maxDuty, b);
    MulMonotone(maxDuty, a, b);
    MulCancel(128, da, db + 1);
  }

  /** The motor driver outputs: the two direction pins and the two PWM channel duties. */
  class Motors {
    const maxDuty: u16
    var rDir: bool
    var lDir: bool
    var duty0: u16
    var duty1: u16

    /** At start-up both direction pins are driven high and both duties are 0. */
    constructor (maxDuty: u16)
      ensures this.maxDuty == maxDuty
      ensures rDir && lDir && duty0 == 0 && duty1 == 0
    {
      this.maxDuty := maxDuty;
      rDir, lDir := true, true;
      duty0, duty1 := 0, 0;
    }

    /**
     * Applies a new speed pair. The right speed drives only rDir and duty0,
     * the left one only lDir and duty1, and the new duties replace the old
     * ones. A speed of -128 panics after the direction pins were written,
     * leaving the duties as they were.
     */
    method ValueUpdate(speedR: i8, speedL: i8) returns (panicked: bool)
      modifies this
      ensures rDir == (speedR > 0) && lDir == (speedL > 0)
      ensures panicked <==> speedR == -128 || speedL == -128
      ensures panicked ==> duty0 == old(duty0) && duty1 == old(duty1)
      ensures !panicked ==>
                duty0 == Duty(maxDuty, CheckedAbs(speedR).value) &&
                duty1 == Duty(maxDuty, CheckedAbs(speedL).value)
    {
      if speedR > 0 {
        rDir := true;
      } else {
        rDir := false;
      }
      if speedL > 0 {
        lDir := true;
      } else {
        lDir := false;
      }

      var absR := CheckedAbs(speedR);
      if absR.None? {
        return true;
      }
      var absL := CheckedAbs(speedL);
      if absL.None? {
        return true;
      }

      duty0 := Duty(maxDuty, absR.value);
      duty1 := Duty(maxDuty, absL.value);
      panicked := false;
    }
  }
}
