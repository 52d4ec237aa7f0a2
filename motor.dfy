// The capstone's dual motor driver: a signed speed in per-mille of full
// power becomes two direction pins and a TIM2 compare value. The left
// motor is IN1/IN2 on PB0/PB1 with CH1, the right one IN3/IN4 on
// PB12/PB13 with CH2.
//
// The GPIOB output levels are a map from pin number to level.

module Motor {

  import opened CInt
  import opened PwmTim2

  const FULL: int := 1000
  /** Motor_Init's TIM2 period: 72 MHz / 3600 = 20 kHz. */
  const MOTOR_PERIOD: int := 3600 - 1

  const LEFT_IN1: int := 0
  const LEFT_IN2: int := 1
  const RIGHT_IN1: int := 12
  const RIGHT_IN2: int := 13
  const LEFT_CH: int := 1
  const RIGHT_CH: int := 2

  /** The speed after Motor_SetOne's clamp to -1000 .. 1000; its sign is kept. */
  function ClampSpeed(speed: int): (s: int)
    ensures -FULL <= s <= FULL
    ensures -FULL <= speed <= FULL ==> s == speed
    ensures (s > 0 <==> speed > 0) && (s < 0 <==> speed < 0)
  {
    if speed > FULL then FULL else if speed < -FULL then -FULL else speed
  }

  /**
   * The compare value for a magnitude m in 1 .. 1000: m * (period + 1) / 1000
   * in uint32_t, cast to uint16_t, then capped at the period. Below the
   * largest period it is the exact per-mille share of the PWM cycle
   * rounded down, and full speed gives exactly the period.
   */
  function Duty(m: int, period: int): (c: int)
    requires 1 <= m <= FULL && 0 <= period < U16_MOD
    ensures 0 <= c <= period
    ensures period < 0xFFFF && m < FULL ==> c * FULL <= m * (period + 1) < (c + 1) * FULL
    ensures period < 0xFFFF && m == FULL ==> c == period
  {
    DutyQuotient(m, period);
    var c := U16(m * (period + 1) / FULL);
    if c > period then period else c
  }

  /** The quotient before the casts: below the largest period it fits 16 bits, and it stays below period + 1 unless m is full. */
  lemma DutyQuotient(m: int, period: int)
    requires 1 <= m <= FULL && 0 <= period < U16_MOD
    ensures var q := m * (period + 1) / FULL;
      0 <= q && q * FULL <= m * (period + 1) < (q + 1) * FULL
      && (period < 0xFFFF ==> q < U16_MOD)
      && (m < FULL ==> q <= period)
      && (m == FULL ==> q == period + 1)
  {
    var x := m * (period + 1);
    MulMono(m, FULL, period + 1);
    DivBounds(x, FULL);
    var q := x / FULL;
    if m < FULL {
      MulMono(m, FULL - 1, period + 1);
      if q > period {
        MulMono(period + 1, q, FULL);
      }
    } else {
      DivModUnique(x, FULL, period + 1, 0);
    }
    if period < 0xFFFF && q >= U16_MOD {
      MulMono(U16_MOD, q, FULL);
    }
  }

  /**
   * The 16-bit cast matters only for the period 0xFFFF, which no caller
   * configures: there full speed computes 65536, which wraps to 0.
   */
  lemma DutyLargestPeriod()
    ensures Duty(FULL, 0xFFFF) == 0 && Duty(999, 0xFFFF) == 65470
  {
  }

  /** A faster command never gets a smaller compare value. */
  lemma DutyMonotone(m1: int, m2: int, period: int)
    requires 1 <= m1 <= m2 <= FULL && 0 <= period < 0xFFFF
    ensures Duty(m1, period) <= Duty(m2, period)
  {
    var x1, x2 := m1 * (period + 1), m2 * (period + 1);
    assert x1 <= x2;
    assert x1 / FULL <= x2 / FULL;
  }

  /** The compare value for a clamped speed: 0 when stopped, Duty of the magnitude otherwise. */
  function Compare(s: int, period: int): (c: int)
    requires -FULL <= s <= FULL && 0 <= period < U16_MOD
    ensures 0 <= c <= period
    ensures s == 0 ==> c == 0
  {
    if s == 0 then 0 else Duty(Abs(s), period)
  }

  /** At the motor period the two directions of the same magnitude drive the motor equally hard. */
  lemma CompareSymmetric(s: int)
    requires -FULL <= s <= FULL
    ensures Compare(s, MOTOR_PERIOD) == Compare(-s, MOTOR_PERIOD)
  {
  }

  lemma CompareExamples()
    ensures Compare(FULL, MOTOR_PERIOD) == MOTOR_PERIOD && Compare(-500, MOTOR_PERIOD) == 1800
    ensures Compare(1, MOTOR_PERIOD) == 3
  {
  }

  class Driver {
    const pwm: Tim2
    /** GPIOB output levels, true for high. */
    var pb: map<int, bool>

    ghost predicate Valid()
      reads this, pwm
    {
      pwm.Valid()
    }

    /**
     * Motor_Init: TIM2 at the 20 kHz motor period with CH1 and CH2 enabled,
     * then Motor_Stop.
     */
    constructor (pwm: Tim2)
      requires pwm.Valid()
      modifies pwm
      ensures Valid() && this.pwm == pwm
      ensures pwm.period == MOTOR_PERIOD && pwm.pins == old(pwm.pins) + {0, 1}
      ensures pwm.ccr[0] == 0 && pwm.ccr[1] == 0
      ensures pb == map[LEFT_IN1 := false, LEFT_IN2 := false, RIGHT_IN1 := false, RIGHT_IN2 := false]
    {
      this.pwm := pwm;
      pb := map[];
      new;
      pwm.Init(0, MOTOR_PERIOD);
      pwm.EnableChannel(1);
      pwm.EnableChannel(2);
      Stop();
    }

    /**
     * Motor_SetOne: clamp the speed; forward raises in1 and lowers in2,
     * reverse the opposite, stop lowers both; the channel gets Compare of
     * the clamped speed.
     */
    method SetOne(speed: int, in1: int, in2: int, ch: int)
      requires Valid() && -0x8000 <= speed < 0x8000 && 1 <= ch <= CHANNELS
      modifies this`pb, pwm`ccr
      ensures Valid()
      ensures var s := ClampSpeed(speed);
        pb == old(pb)[in1 := s > 0][in2 := s < 0]
        && pwm.ccr == old(pwm.ccr)[ch - 1 := Compare(s, pwm.period)]
    {
      var s := speed;
      if s > FULL {
        s := FULL;
      }
      if s < -FULL {
        s := -FULL;
      }
      if s == 0 {
        pb := pb[in1 := false];
        pb := pb[in2 := false];
        pwm.SetCompare(ch, 0);
        return;
      }
      if s > 0 {
        pb := pb[in1 := true];
        pb := pb[in2 := false];
      } else {
        pb := pb[in1 := false];
        pb := pb[in2 := true];
        s := -s;
      }
      var period := pwm.GetPeriod();
      var compare := U16(s * (period + 1) / FULL);
      if compare > period {
        compare := period;
      }
      pwm.SetCompare(ch, compare);
    }

    /** Motor_Set: the left motor on PB0/PB1 and CH1, then the right on PB12/PB13 and CH2. */
    method Set(left: int, right: int)
      requires Valid() && -0x8000 <= left < 0x8000 && -0x8000 <= right < 0x8000
      modifies this`pb, pwm`ccr
      ensures Valid()
      ensures var l, r := ClampSpeed(left), ClampSpeed(right);
        pb == old(pb)[LEFT_IN1 := l > 0][LEFT_IN2 := l < 0][RIGHT_IN1 := r > 0][RIGHT_IN2 := r < 0]
        && pwm.ccr == old(pwm.ccr)[0 := Compare(l, pwm.period)][1 := Compare(r, pwm.period)]
    {
      SetOne(left, LEFT_IN1, LEFT_IN2, LEFT_CH);
      SetOne(right, RIGHT_IN1, RIGHT_IN2, RIGHT_CH);
    }

    /** Motor_Stop: all four direction pins low and both compare values 0. */
    method Stop()
      requires Valid()
      modifies this`pb, pwm`ccr
      ensures Valid()
      ensures pb == old(pb)[LEFT_IN1 := false][LEFT_IN2 := false][RIGHT_IN1 := false][RIGHT_IN2 := false]
      ensures pwm.ccr == old(pwm.ccr)[0 := 0][1 := 0]
    {
      Set(0, 0);
    }
  }
}
