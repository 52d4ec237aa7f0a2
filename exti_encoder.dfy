// The interrupt-driven quadrature decoder of lesson 5-2: phase A on PB0
// (EXTI line 0) and phase B on PB1 (EXTI line 1), both triggered on the
// falling edge, add or subtract one from a signed 16-bit count.
//
// A pin level is a bool, true for high. The EXTI pending bits are fields
// that the edge detector sets; each interrupt handler runs as one atomic
// step between main-loop statements.

module ExtiEncoder {

  import opened CInt

  /** The step of the line-0 handler when A reads a and B reads b. */
  function StepA(a: bool, b: bool): (d: int)
    ensures -1 <= d <= 1
    ensures d == 0 <==> a
  {
    if a then 0 else if b then 1 else -1
  }

  /** The step of the line-1 handler when A reads a and B reads b. */
  function StepB(a: bool, b: bool): (d: int)
    ensures -1 <= d <= 1
    ensures d == 0 <==> b
  {
    if b then 0 else if a then -1 else 1
  }

  /**
   * The two edges of one clockwise quarter-turn pair (A falls while B is
   * high, then B falls while A is low) both count +1; the mirrored
   * counter-clockwise pair both count -1.
   */
  lemma DirectionRule()
    ensures StepA(false, true) == 1 && StepB(false, false) == 1
    ensures StepB(true, false) == -1 && StepA(false, false) == -1
  {
  }

  /** A confirmed fall of A and a confirmed fall of B, with the other phase at the same level y, count in opposite senses. */
  lemma PhasesAntisymmetric(y: bool)
    ensures StepA(false, y) == -StepB(y, false)
  {
  }

  class Decoder {
    /** Encoder_Count, an int16_t. */
    var count: int
    /** The EXTI pending bits of lines 0 and 1. */
    var pending0: bool
    var pending1: bool

    ghost predicate Valid()
      reads this
    {
      -0x8000 <= count < 0x8000
    }

    constructor ()
      ensures Valid() && count == 0 && !pending0 && !pending1
    {
      count, pending0, pending1 := 0, false, false;
    }

    /** A falling edge on line 0 or 1 sets its pending bit. */
    method Fall(line: int)
      modifies this`pending0, this`pending1
      ensures line == 0 ==> pending0 && pending1 == old(pending1)
      ensures line == 1 ==> pending1 && pending0 == old(pending0)
      ensures line != 0 && line != 1 ==> pending0 == old(pending0) && pending1 == old(pending1)
    {
      if line == 0 {
        pending0 := true;
      } else if line == 1 {
        pending1 := true;
      }
    }

    /**
     * EXTI0_IRQHandler with A reading a and B reading b: nothing unless
     * line 0 is pending; then the count moves by StepA (int16_t wrap) and
     * the pending bit is cleared.
     */
    method Exti0(a: bool, b: bool)
      requires Valid()
      modifies this`count, this`pending0
      ensures Valid()
      ensures !old(pending0) ==> count == old(count) && !pending0
      ensures old(pending0) ==> count == I16(old(count) + StepA(a, b)) && !pending0
    {
      if pending0 {
        if !a {
          if !b {
            count := I16(count - 1);
          } else {
            count := I16(count + 1);
          }
        }
        pending0 := false;
      }
    }

    /** EXTI1_IRQHandler: the same for line 1 with StepB. */
    method Exti1(a: bool, b: bool)
      requires Valid()
      modifies this`count, this`pending1
      ensures Valid()
      ensures !old(pending1) ==> count == old(count) && !pending1
      ensures old(pending1) ==> count == I16(old(count) + StepB(a, b)) && !pending1
    {
      if pending1 {
        if !b {
          if !a {
            count := I16(count + 1);
          } else {
            count := I16(count - 1);
          }
        }
        pending1 := false;
      }
    }

    /** Encoder_Get: the count since the last call, which is reset to 0. */
    method Get() returns (v: int)
      requires Valid()
      modifies this`count
      ensures Valid() && v == old(count) && count == 0
    {
      v := count;
      count := 0;
    }
  }

  /**
   * One clockwise detent: A falls with B high, then B falls with A low.
   * Both handlers count up, so Encoder_Get reports 2.
   */
  method ClockwiseDetent(e: Decoder) returns (v: int)
    requires e.Valid() && e.count == 0 && !e.pending0 && !e.pending1
    modifies e
    ensures v == 2 && e.count == 0
  {
    e.Fall(0);
    e.Exti0(false, true);
    e.Fall(1);
    e.Exti1(false, false);
    v := e.Get();
  }

  /** One counter-clockwise detent: B falls with A high, then A falls with B low; Encoder_Get reports -2. */
  method CounterClockwiseDetent(e: Decoder) returns (v: int)
    requires e.Valid() && e.count == 0 && !e.pending0 && !e.pending1
    modifies e
    ensures v == -2 && e.count == 0
  {
    e.Fall(1);
    e.Exti1(true, false);
    e.Fall(0);
    e.Exti0(false, false);
    v := e.Get();
  }

  /** A bounce that is already high again when the handler reads the pin counts nothing. */
  method Bounce(e: Decoder)
    requires e.Valid()
    modifies e
    ensures e.count == old(e.count) && !e.pending0
  {
    e.Fall(0);
    e.Exti0(true, true);
  }
}
