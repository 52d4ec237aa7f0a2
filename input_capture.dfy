// Frequency and duty measurement with TIM3's input capture, as in the
// input-capture lesson (frequency only) and the PWM-input lesson
// (frequency and duty). TIM3 counts at 1 MHz up to 65535 and is reset by
// each rising edge, so CCR1 holds the signal period in microseconds minus
// one and, in PWM-input mode, CCR2 the high time minus one.
//
// The two IC_GetFreq functions are the same expression and are modelled
// once; the captured registers are parameters.

module InputCapture {

  import opened CInt

  const COUNTER_HZ: int := 1000000
  /** The auto-reload value 65536 - 1 bounds every capture. */
  const MAX_CAPTURE: int := 0xFFFF

  /**
   * IC_GetFreq: 1000000 / (CCR1 + 1). The divisor is at least 1, and the
   * result is the number of whole signal periods per second.
   */
  function GetFreq(ccr1: int): (f: int)
    requires 0 <= ccr1 <= MAX_CAPTURE
    ensures 15 <= f <= COUNTER_HZ
    ensures f * (ccr1 + 1) <= COUNTER_HZ < (f + 1) * (ccr1 + 1)
  {
    var d := ccr1 + 1;
    var f := COUNTER_HZ / d;
    DivBounds(COUNTER_HZ, d);
    assert f >= 15 by {
      if f < 15 {
        MulMono(f + 1, 15, d);
      }
    }
    f
  }

  /** A longer period never reads as a higher frequency. */
  lemma FreqAntitone(a: int, b: int)
    requires 0 <= a <= b <= MAX_CAPTURE
    ensures GetFreq(b) <= GetFreq(a)
  {
    var fa, fb := GetFreq(a), GetFreq(b);
    if fb > fa {
      MulMono(fa + 1, fb, a + 1);
      MulMono(a + 1, b + 1, fb);
    }
  }

  /** A 1 kHz signal captures 999; the extremes are 1 MHz and 15 Hz. */
  lemma FreqExamples()
    ensures GetFreq(999) == 1000 && GetFreq(0) == COUNTER_HZ && GetFreq(MAX_CAPTURE) == 15
  {
  }

  /**
   * IC_GetDuty: (CCR2 + 1) * 100 / (CCR1 + 1), the high time as a whole
   * percentage of the period, rounded down. The numerator is at most
   * 6553600, so the 32-bit arithmetic cannot wrap.
   */
  function GetDuty(ccr1: int, ccr2: int): (d: int)
    requires 0 <= ccr1 <= MAX_CAPTURE && 0 <= ccr2 <= MAX_CAPTURE
    ensures 0 <= d && (ccr2 + 1) * 100 < U32_MOD
    ensures d * (ccr1 + 1) <= (ccr2 + 1) * 100 < (d + 1) * (ccr1 + 1)
    ensures ccr2 <= ccr1 ==> d <= 100
  {
    var n, q := (ccr2 + 1) * 100, ccr1 + 1;
    var d := n / q;
    DivBounds(n, q);
    assert ccr2 <= ccr1 ==> d <= 100 by {
      if ccr2 <= ccr1 && d > 100 {
        MulMono(101, d, q);
      }
    }
    d
  }

  /** A 50 % signal of period 1000 µs reads 50; a high time of the whole period reads 100. */
  lemma DutyExamples(c: int)
    requires 0 <= c <= MAX_CAPTURE
    ensures GetDuty(999, 499) == 50 && GetDuty(c, c) == 100
  {
    assert (c + 1) * 100 / (c + 1) == 100 by {
      assert (c + 1) * 100 == 100 * (c + 1);
    }
  }
}
