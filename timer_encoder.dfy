// The timer encoder interface: a TIM in encoder mode counts quadrature
// edges in a 16-bit counter with period 0xFFFF, and the driver reads the
// change since the last read as an int16_t and clears the counter. The
// capstone runs two of them (TIM3 and TIM4); lesson 6-8 runs TIM3 alone.

module TimerEncoder {

  import opened CInt

  /** TIM_Period = 0xFFFF: the counter runs through all 65536 values. */
  const PERIOD: int := 0xFFFF

  /** A delta within the int16_t range is exactly what the counter reads back from 0. */
  lemma DeltaRecovers(d: int)
    requires -0x8000 <= d < 0x8000
    ensures I16((0 + d) % (PERIOD + 1)) == d
  {
  }

  /** Half a turn of the 16-bit counter aliases: 0x8000 counts forward read as -32768. */
  lemma DeltaAliases()
    ensures I16(0x8000 % (PERIOD + 1)) == -0x8000 && I16(0xFFFF) == -1
  {
  }

  class Counter {
    /** TIMx->CNT. */
    var cnt: int

    ghost predicate Valid()
      reads this
    {
      0 <= cnt <= PERIOD
    }

    /** Encoder_InitTIM / Encoder_Init: the counter starts at 0 (reset value or TIM_SetCounter). */
    constructor ()
      ensures Valid() && cnt == 0
    {
      cnt := 0;
    }

    /** The hardware counting d edges, up or down, modulo the period. */
    method Count(d: int)
      requires Valid()
      modifies this
      ensures Valid() && cnt == (old(cnt) + d) % (PERIOD + 1)
    {
      cnt := (cnt + d) % (PERIOD + 1);
    }

    /**
     * Encoder_GetDelta (capstone) and Encoder_Get (lesson 6-8): the counter
     * read as an int16_t, positive for clockwise, then cleared.
     */
    method GetDelta() returns (delta: int)
      requires Valid()
      modifies this
      ensures Valid() && cnt == 0
      ensures delta == I16(old(cnt)) && -0x8000 <= delta < 0x8000
    {
      delta := I16(cnt);
      cnt := 0;
    }
  }

  /** Motion of fewer than 32768 counts between two reads is reported exactly, and a second read then gives 0. */
  method ReadTwice(c: Counter, d: int) returns (first: int, second: int)
    requires c.Valid() && c.cnt == 0 && -0x8000 <= d < 0x8000
    modifies c
    ensures first == d && second == 0
  {
    c.Count(d);
    DeltaRecovers(d);
    first := c.GetDelta();
    second := c.GetDelta();
  }

  /** The capstone's pair: TIM3 on PA6/PA7 and TIM4 on PB6/PB7. */
  class Pair {
    const tim3: Counter
    const tim4: Counter

    ghost predicate Valid()
      reads this, tim3, tim4
    {
      tim3 != tim4 && tim3.Valid() && tim4.Valid()
    }

    /** Encoder_TIM3_Init and Encoder_TIM4_Init. */
    constructor ()
      ensures Valid() && fresh(tim3) && fresh(tim4) && tim3.cnt == 0 && tim4.cnt == 0
    {
      tim3 := new Counter();
      tim4 := new Counter();
    }

    /** Encoder_TIM3_GetDelta: TIM3's delta; TIM4 keeps counting undisturbed. */
    method Tim3GetDelta() returns (delta: int)
      requires Valid()
      modifies tim3
      ensures Valid() && delta == I16(old(tim3.cnt)) && tim3.cnt == 0 && tim4.cnt == old(tim4.cnt)
    {
      delta := tim3.GetDelta();
    }

    /** Encoder_TIM4_GetDelta: TIM4's delta; TIM3 is not touched. */
    method Tim4GetDelta() returns (delta: int)
      requires Valid()
      modifies tim4
      ensures Valid() && delta == I16(old(tim4.cnt)) && tim4.cnt == 0 && tim3.cnt == old(tim3.cnt)
    {
      delta := tim4.GetDelta();
    }
  }
}
