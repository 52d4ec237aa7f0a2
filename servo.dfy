// The capstone's hobby-servo driver on TIM2: a 1 MHz tick and a 20 ms
// frame, with the pulse width in microseconds held to 500 .. 2500.

module Servo {

  import opened CInt
  import opened PwmTim2

  const MIN_PULSE: int := 500
  const MAX_PULSE: int := 2500
  /** Servo_Init: 72 MHz / 72 = 1 MHz, and 20000 ticks = 20 ms. */
  const SERVO_PRESCALER: int := 72 - 1
  const SERVO_PERIOD: int := 20000 - 1

  /** Servo_ClampPulse. */
  function ClampPulse(us: int): (p: int)
    requires 0 <= us < U16_MOD
    ensures MIN_PULSE <= p <= MAX_PULSE
    ensures MIN_PULSE <= us <= MAX_PULSE ==> p == us
    ensures us < MIN_PULSE ==> p == MIN_PULSE
    ensures us > MAX_PULSE ==> p == MAX_PULSE
  {
    if us < MIN_PULSE then MIN_PULSE else if us > MAX_PULSE then MAX_PULSE else us
  }

  /** Clamping twice is clamping once. */
  lemma ClampIdempotent(us: int)
    requires 0 <= us < U16_MOD
    ensures ClampPulse(ClampPulse(us)) == ClampPulse(us)
  {
  }

  /** A longer request never gives a shorter pulse. */
  lemma ClampMonotone(a: int, b: int)
    requires 0 <= a <= b < U16_MOD
    ensures ClampPulse(a) <= ClampPulse(b)
  {
  }

  /** Every clamped pulse fits the servo frame, so PWM_TIM2_SetCompare passes it on unchanged. */
  lemma ClampFitsPeriod(us: int)
    requires 0 <= us < U16_MOD
    ensures Clip(ClampPulse(us), SERVO_PERIOD) == ClampPulse(us)
  {
  }

  /** Servo_Init: TIM2 at the 20 ms frame with CH1 .. CH3 (PA0 .. PA2) enabled at compare 0. */
  method Init(pwm: Tim2)
    requires pwm.Valid()
    modifies pwm
    ensures pwm.Valid() && pwm.period == SERVO_PERIOD && pwm.psc == SERVO_PRESCALER
    ensures pwm.pins == old(pwm.pins) + {0, 1, 2}
    ensures pwm.ccr == old(pwm.ccr)[0 := 0][1 := 0][2 := 0]
  {
    pwm.Init(SERVO_PRESCALER, SERVO_PERIOD);
    pwm.EnableChannel(1);
    pwm.EnableChannel(2);
    pwm.EnableChannel(3);
  }
}
