// The PWM DC-motor lesson: an L298N driver with IN1 on PA4, IN2 on PA5,
// the enable input on TIM2 CH3 (period 100, so the compare value is the
// duty in percent) and a forward LED on PA0. Key 1 steps the speed
// 0, 20, ..., 100, -100, -80, ..., 0.
//
// The pins are booleans (true for high) and CCR3 an integer; the blocking
// key debounce is left out and each main-loop pass takes the key number
// it returned as a parameter.

module LessonMotor {

  import opened CInt

  /** The speeds the demo steps through. */
  predicate ValidSpeed(s: int)
  {
    -100 <= s <= 100 && s % 20 == 0
  }

  class Bridge {
    /** PA4 (IN1), PA5 (IN2), PA0 (the LED), TIM2's CCR3, and Motor_ToggleLed's static state. */
    var in1: bool
    var in2: bool
    var led: bool
    var ccr3: int
    var toggled: bool

    /** Motor_Init: the LED starts off; the static toggle state starts at 0. */
    constructor ()
      ensures !led && !toggled && ccr3 == 0 && !in1 && !in2
    {
      in1, in2, led, ccr3, toggled := false, false, false, 0, false;
    }

    /**
     * Motor_SetSpeed: a non-negative speed (0 included) drives forward
     * with duty Speed, a negative one backward with duty -Speed.
     */
    method SetSpeed(speed: int)
      requires -0x80 <= speed < 0x80
      modifies this`in1, this`in2, this`ccr3
      ensures in1 == (speed >= 0) && in2 == (speed < 0)
      ensures ccr3 == Abs(speed) && ccr3 <= 0x80
    {
      if speed >= 0 {
        in1 := true;
        in2 := false;
        ccr3 := U16(speed);
      } else {
        in1 := false;
        in2 := true;
        ccr3 := U16(-speed);
      }
    }

    /** Motor_SetLed: the LED is on exactly when State is nonzero. */
    method SetLed(state: int)
      requires 0 <= state < U8_MOD
      modifies this`led
      ensures led == (state != 0)
    {
      if state != 0 {
        led := true;
      } else {
        led := false;
      }
    }

    /** Motor_ToggleLed: the static state flips and the LED follows it. */
    method ToggleLed()
      modifies this`led, this`toggled
      ensures toggled == !old(toggled) && led == toggled
    {
      toggled := !toggled;
      if toggled {
        led := true;
      } else {
        led := false;
      }
    }
  }

  /** The first toggle after reset turns the LED on, the second off again. */
  method ToggleFromReset() returns (first: bool, second: bool)
    ensures first && !second
  {
    var b := new Bridge();
    b.ToggleLed();
    first := b.led;
    b.ToggleLed();
    second := b.led;
  }

  /** A key-1 press: Speed += 20 in int8_t, and above 100 it becomes -100. */
  function NextSpeed(s: int): (n: int)
    requires ValidSpeed(s)
    ensures ValidSpeed(n)
    ensures s < 100 ==> n == s + 20
    ensures s == 100 ==> n == -100
  {
    var t := I8(s + 20);
    if t > 100 then -100 else t
  }

  /** The speed after n presses. */
  function Presses(s: int, n: nat): (r: int)
    requires ValidSpeed(s)
    ensures ValidSpeed(r)
  {
    if n == 0 then s else NextSpeed(Presses(s, n - 1))
  }

  /** The position of a speed in the cycle 0, 20, ..., 100, -100, ..., -20. */
  function Phase(s: int): (k: int)
    requires ValidSpeed(s)
    ensures 0 <= k < 11
  {
    if s >= 0 then s / 20 else s / 20 + 11
  }

  /** Each press advances the phase by one, round a cycle of eleven speeds. */
  lemma {:induction false} PressesPhase(s: int, n: nat)
    requires ValidSpeed(s)
    ensures Phase(Presses(s, n)) == (Phase(s) + n) % 11
  {
    if n > 0 {
      var p := Presses(s, n - 1);
      PressesPhase(s, n - 1);
      PhaseNext(p);
      assert Presses(s, n) == NextSpeed(p);
      ModSucc(Phase(s) + n - 1, 11);
    }
  }

  /** One press advances the phase by one. */
  lemma PhaseNext(s: int)
    requires ValidSpeed(s)
    ensures Phase(NextSpeed(s)) == if Phase(s) == 10 then 0 else Phase(s) + 1
  {
    var k := s / 20;
    assert s == 20 * k;
    if s == 100 {
    } else if s == -20 {
      assert NextSpeed(s) == 0;
    } else {
      assert NextSpeed(s) == 20 * (k + 1);
    }
  }

  /** A speed is determined by its phase. */
  lemma PhaseInjective(a: int, b: int)
    requires ValidSpeed(a) && ValidSpeed(b) && Phase(a) == Phase(b)
    ensures a == b
  {
  }

  /** Every multiple of eleven presses comes back to the starting speed. */
  lemma SpeedCycle(s: int, n: nat)
    requires ValidSpeed(s) && n % 11 == 0
    ensures Presses(s, n) == s
  {
    PressesPhase(s, n);
    DivModUnique(Phase(s) + n, 11, n / 11, Phase(s));
    PhaseInjective(Presses(s, n), s);
  }

  /** The demo's start 0 reaches every speed, in phase order. */
  lemma EverySpeedReached(s: int)
    requires ValidSpeed(s)
    ensures Presses(0, Phase(s)) == s
  {
    var k := Phase(s);
    PressesPhase(0, k);
    DivModUnique(0 + k, 11, 0, k);
    PhaseInjective(Presses(0, k), s);
  }

  lemma SpeedExamples()
    ensures Presses(0, 5) == 100 && Presses(0, 6) == -100 && Presses(0, 10) == -20
  {
  }

  class Demo {
    /** The global Speed, and the driver it is applied to. */
    var speed: int
    const bridge: Bridge

    ghost predicate Valid()
      reads this
    {
      ValidSpeed(speed)
    }

    constructor (b: Bridge)
      ensures Valid() && speed == 0 && bridge == b
    {
      speed := 0;
      bridge := b;
    }

    /**
     * One pass of the main loop: key 1 steps the speed, then the speed
     * (changed or not) is applied to the motor.
     */
    method Step(key: int)
      requires Valid()
      modifies this`speed, bridge`in1, bridge`in2, bridge`ccr3
      ensures Valid()
      ensures speed == if key == 1 then NextSpeed(old(speed)) else old(speed)
      ensures bridge.in1 == (speed >= 0) && bridge.in2 == (speed < 0) && bridge.ccr3 == Abs(speed)
    {
      if key == 1 {
        speed := I8(speed + 20);
        if speed > 100 {
          speed := -100;
        }
      }
      bridge.SetSpeed(speed);
    }
  }
}
