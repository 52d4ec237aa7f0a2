// The capstone's audio sampler: TIM3's update event triggers ADC1 on
// PA3, and DMA1 channel 1 fills a 256-sample circular buffer, raising a
// half-transfer and a transfer-complete interrupt once per pass.
//
// TIM3 is modelled by its prescaler and auto-reload registers, DMA1 by its
// two pending interrupt flags, and the sampler by s_block_ready and
// s_block_index. The samples themselves are written by the DMA hardware
// and are not modelled; a block is named by its offset and length.

module AdcAudio {

  import opened CInt

  const TIMER_CLK: int := 72000000
  const AUDIO_SAMPLES: int := 256
  const HALF: int := AUDIO_SAMPLES / 2
  /** The largest 16-bit auto-reload period. */
  const MAX_PERIOD: int := 0xFFFF

  /** TIM3_InitTrigger's first period: 72 MHz / rate, with 0 raised to 1. */
  function FirstPeriod(rate: int): (p: int)
    requires 1 <= rate < U32_MOD
    ensures 1 <= p <= TIMER_CLK
  {
    if TIMER_CLK / rate == 0 then 1 else TIMER_CLK / rate
  }

  /** The prescaler: 0 when the first period fits 16 bits, period / 0xFFFF + 1 otherwise. */
  function Prescaler(rate: int): (psc: int)
    requires 1 <= rate < U32_MOD
    ensures 0 <= psc < U16_MOD
    ensures psc == 0 <==> FirstPeriod(rate) <= MAX_PERIOD
  {
    var p := FirstPeriod(rate);
    if p > MAX_PERIOD then U16(p / MAX_PERIOD + 1) else 0
  }

  /** The timer clock after the prescaler, rounded down as the code does. */
  function Clock(psc: int): int
    requires 0 <= psc
  {
    TIMER_CLK / (psc + 1)
  }

  /**
   * When the first period is too long for 16 bits, the period recomputed
   * from the prescaled clock lies in 1 .. 0xFFFE: the prescaler never
   * overshoots to a zero period and always brings it under the reload limit.
   */
  lemma AdjustedPeriodFits(rate: int)
    requires 1 <= rate < U32_MOD && TIMER_CLK / rate > MAX_PERIOD
    ensures var t := TIMER_CLK / (TIMER_CLK / rate / MAX_PERIOD + 2);
      rate <= t < MAX_PERIOD * rate
  {
    var p0 := TIMER_CLK / rate;
    var q := p0 / MAX_PERIOD;
    var t := TIMER_CLK / (q + 2);
    DivBounds(TIMER_CLK, rate);
    DivBounds(p0, MAX_PERIOD);
    DivBounds(TIMER_CLK, q + 2);
    // upper bound: 72 MHz < (p0 + 1) * rate <= (q + 1) * 0xFFFF * rate
    assert p0 + 1 <= (q + 1) * MAX_PERIOD;
    MulMono(p0 + 1, (q + 1) * MAX_PERIOD, rate);
    assert TIMER_CLK < (q + 1) * MAX_PERIOD * rate;
    MulMono(q + 1, q + 2, MAX_PERIOD * rate);
    assert t * (q + 2) < MAX_PERIOD * rate * (q + 2);
    if t >= MAX_PERIOD * rate {
      MulMono(MAX_PERIOD * rate, t, q + 2);
      assert false;
    }
    // lower bound: the rate is at most 1098, and q * rate at most 1098
    MulMono(MAX_PERIOD + 1, p0, rate);
    assert rate <= 1098;
    MulMono(q * MAX_PERIOD, p0, rate);
    assert q * rate * MAX_PERIOD <= TIMER_CLK;
    assert q * rate <= 1099;
    assert rate * (q + 2) <= TIMER_CLK;
    if t < rate {
      MulMono(t + 1, rate, q + 2);
      assert false;
    }
  }

  /**
   * The trigger period in timer ticks: whenever the rate is at most the
   * timer clock it is the whole number of prescaled ticks per sample
   * rounded down, and it always fits the 16-bit auto-reload register.
   */
  function Period(rate: int): (p: int)
    requires 1 <= rate < U32_MOD
    ensures 1 <= p <= MAX_PERIOD
    ensures rate <= TIMER_CLK ==> p * rate <= Clock(Prescaler(rate)) < (p + 1) * rate
    ensures rate > TIMER_CLK ==> Prescaler(rate) == 0 && p == 1
  {
    var p0 := FirstPeriod(rate);
    if p0 > MAX_PERIOD then
      var q := p0 / MAX_PERIOD;
      var t := TIMER_CLK / (q + 2);
      PrescaledPeriod(rate, q, t);
      t / rate
    else
      UnscaledPeriod(rate);
      p0
  }

  /** The unadjusted branch of Period: 72 MHz / rate, or 1 for a rate above 72 MHz. */
  lemma UnscaledPeriod(rate: int)
    requires 1 <= rate < U32_MOD && FirstPeriod(rate) <= MAX_PERIOD
    ensures Prescaler(rate) == 0 && Clock(0) == TIMER_CLK
    ensures rate <= TIMER_CLK ==> FirstPeriod(rate) * rate <= TIMER_CLK < (FirstPeriod(rate) + 1) * rate
    ensures rate > TIMER_CLK ==> FirstPeriod(rate) == 1
  {
    var d := TIMER_CLK / rate;
    DivBounds(TIMER_CLK, rate);
    DivNonNegative(TIMER_CLK, rate);
    if rate > TIMER_CLK {
      if d >= 1 {
        MulMono(1, d, rate);
        assert false;
      }
    } else {
      if d == 0 {
        assert false;
      }
      assert FirstPeriod(rate) == d;
    }
  }

  /** The adjusted branch of Period: the prescaler is q + 1 and the period t / rate fits. */
  lemma PrescaledPeriod(rate: int, q: int, t: int)
    requires 1 <= rate < U32_MOD && FirstPeriod(rate) > MAX_PERIOD
    requires q == FirstPeriod(rate) / MAX_PERIOD && t == TIMER_CLK / (q + 2)
    ensures rate <= TIMER_CLK && Prescaler(rate) == q + 1 && Clock(Prescaler(rate)) == t
    ensures 1 <= t / rate < MAX_PERIOD
    ensures (t / rate) * rate <= t < (t / rate + 1) * rate
  {
    assert FirstPeriod(rate) == TIMER_CLK / rate;
    DivNonNegative(FirstPeriod(rate), MAX_PERIOD);
    DivBounds(FirstPeriod(rate), MAX_PERIOD);
    assert 0 <= q <= 1098;
    assert Prescaler(rate) == U16(q + 1) == q + 1;
    AdjustedPeriodFits(rate);
    DivNonNegative(TIMER_CLK, q + 2);
    DivBounds(TIMER_CLK, q + 2);
    assert rate <= t <= TIMER_CLK;
    DivBounds(t, rate);
    assert t / rate < MAX_PERIOD by {
      if t / rate >= MAX_PERIOD {
        MulMono(MAX_PERIOD, t / rate, rate);
      }
    }
  }

  /** 8 kHz needs no prescaler and 9000 ticks; 1 kHz and 1 Hz need prescalers 2 and 1099. */
  lemma TriggerExamples()
    ensures Prescaler(8000) == 0 && Period(8000) == 9000
    ensures Prescaler(1000) == 2 && Period(1000) == 24000
    ensures Prescaler(1) == 1099 && Period(1) == 65454
  {
    assert FirstPeriod(1000) == 72000;
    assert FirstPeriod(1) == TIMER_CLK;
  }

  /** A block of the sample buffer: its first sample and its length. */
  datatype Block = Block(offset: int, count: int)

  /** The block a buffer index names: the first half for 0, the second half for any other value. */
  function BlockOf(index: int): (b: Block)
    ensures b.count == HALF && 0 <= b.offset && b.offset + b.count <= AUDIO_SAMPLES
    ensures b.offset == 0 <==> index == 0
  {
    if index == 0 then Block(0, HALF) else Block(HALF, HALF)
  }

  /** The two blocks are the two halves of the buffer: disjoint, and together all of it. */
  lemma BlocksTile()
    ensures BlockOf(0).offset + BlockOf(0).count == BlockOf(1).offset
    ensures BlockOf(1).offset + BlockOf(1).count == AUDIO_SAMPLES
  {
  }

  class Sampler {
    /** TIM3's prescaler and auto-reload registers. */
    var psc: int
    var arr: int
    /** DMA1's pending half-transfer (HT1) and transfer-complete (TC1) flags. */
    var htPending: bool
    var tcPending: bool
    /** s_block_ready and s_block_index. */
    var ready: bool
    var index: int

    /** The statics start at 0 and no interrupt is pending. */
    constructor ()
      ensures !ready && index == 0 && !htPending && !tcPending
    {
      psc, arr := 0, 0;
      htPending, tcPending := false, false;
      ready, index := false, 0;
    }

    /** TIM3_InitTrigger: the prescaler and the 16-bit period - 1 are programmed. */
    method InitTrigger(rate: int)
      requires 1 <= rate < U32_MOD
      modifies this`psc, this`arr
      ensures psc == Prescaler(rate) && arr == Period(rate) - 1
      ensures 0 <= arr < MAX_PERIOD
    {
      var timerClk := TIMER_CLK;
      var prescaler := 0;
      var period := timerClk / rate;
      if period == 0 {
        period := 1;
      }
      if period > MAX_PERIOD {
        prescaler := U16(period / MAX_PERIOD + 1);
        timerClk := timerClk / (prescaler + 1);
        period := timerClk / rate;
      }
      psc := prescaler;
      arr := U16(period - 1);
    }

    /** The DMA reaches the middle of the buffer. */
    method HalfTransfer()
      modifies this`htPending
      ensures htPending
    {
      htPending := true;
    }

    /** The DMA reaches the end of the buffer and wraps to its start. */
    method TransferComplete()
      modifies this`tcPending
      ensures tcPending
    {
      tcPending := true;
    }

    /**
     * DMA1_Channel1_IRQHandler: each pending flag is cleared and marks a
     * block ready, half-transfer block 0 and transfer-complete block 1;
     * with both pending, block 1 is the one left ready.
     */
    method Irq()
      modifies this`htPending, this`tcPending, this`ready, this`index
      ensures !htPending && !tcPending
      ensures ready == (old(ready) || old(htPending) || old(tcPending))
      ensures index == if old(tcPending) then 1 else if old(htPending) then 0 else old(index)
    {
      if htPending {
        htPending := false;
        ready := true;
        index := 0;
      }
      if tcPending {
        tcPending := false;
        ready := true;
        index := 1;
      }
    }

    /**
     * ADC_Audio_GetBlock: with no block ready it returns 0 and writes
     * nothing; otherwise it clears the flag and hands out the ready half.
     */
    method GetBlock() returns (b: Option<Block>)
      modifies this`ready
      ensures !old(ready) ==> b.None? && !ready
      ensures old(ready) ==> b == Some(BlockOf(index)) && !ready
    {
      if !ready {
        return None;
      }
      ready := false;
      if index == 0 {
        b := Some(Block(0, HALF));
      } else {
        b := Some(Block(AUDIO_SAMPLES / 2, HALF));
      }
    }
  }

  /** A half-transfer then a transfer-complete before the handler runs hands out the second half. */
  method BothPending(s: Sampler) returns (b: Option<Block>)
    modifies s
    ensures b == Some(Block(HALF, HALF)) && !s.ready
  {
    s.HalfTransfer();
    s.TransferComplete();
    s.Irq();
    b := s.GetBlock();
  }

  /** A second GetBlock with no interrupt in between finds nothing. */
  method TakeTwice(s: Sampler) returns (first: Option<Block>, second: Option<Block>)
    modifies s
    ensures second.None?
  {
    first := s.GetBlock();
    second := s.GetBlock();
  }
}
