// The AT89S52 blink: an LED on P1.0 toggles every 500 ms, timed by Timer 0
// in mode 1 (a 16-bit counter TH0:TL0 that counts one tick every twelve
// oscillator periods and sets TF0 when it overflows from 0xFFFF to 0).
//
// One millisecond is one reload/overflow cycle: the counter is loaded with
// 65536 - TICKS_PER_MS and the CPU spins until TF0 is set. The oscillator
// frequency FOSC_HZ is a build-time setting, so the reload arithmetic is
// stated for every 32-bit value of it and checked at the default
// 11.0592 MHz. The counting hardware is modelled by Tick, one timer tick per
// call, which the busy-wait loop calls while it spins.

module Mcs51Blink {

  import opened CInt

  /** The default oscillator, 11.0592 MHz. */
  const FOSC_HZ: int := 11059200

  /** TICKS_PER_MS: timer ticks in one millisecond, FOSC_HZ / 12 / 1000 in unsigned long. */
  function TicksPerMs(fosc: int): (t: int)
    requires 0 <= fosc < U32_MOD
    ensures 0 <= t && t * 12000 <= fosc < (t + 1) * 12000
  {
    DivBounds(fosc, 12);
    DivBounds(fosc / 12, 1000);
    fosc / 12 / 1000
  }

  /** TIMER0_RELOAD: 65536UL - TICKS_PER_MS, which wraps in unsigned long when the ticks exceed 65536. */
  function Reload(fosc: int): (r: int)
    requires 0 <= fosc < U32_MOD
    ensures 0 <= r < U32_MOD
    ensures TicksPerMs(fosc) <= 0x10000 ==> r == 0x10000 - TicksPerMs(fosc)
  {
    U32(0x10000 - TicksPerMs(fosc))
  }

  /** TH0_RELOAD: bits 8 .. 15 of the reload value. */
  function ReloadHigh(fosc: int): (h: int)
    requires 0 <= fosc < U32_MOD
    ensures 0 <= h < U8_MOD
  {
    Reload(fosc) / 256 % 256
  }

  /** TL0_RELOAD: bits 0 .. 7 of the reload value. */
  function ReloadLow(fosc: int): (l: int)
    requires 0 <= fosc < U32_MOD
    ensures 0 <= l < U8_MOD
  {
    Reload(fosc) % 256
  }

  /** The two reload bytes put back together give the low 16 bits of TIMER0_RELOAD. */
  lemma ReloadBytes(fosc: int)
    requires 0 <= fosc < U32_MOD
    ensures ReloadHigh(fosc) * 256 + ReloadLow(fosc) == Reload(fosc) % 0x10000
    ensures TicksPerMs(fosc) <= 0x10000 ==> ReloadHigh(fosc) * 256 + ReloadLow(fosc) == U16(Reload(fosc))
  {
    SplitBytes(Reload(fosc));
  }

  lemma SplitBytes(r: int)
    requires 0 <= r
    ensures (r / 256 % 256) * 256 + r % 256 == r % 0x10000
  {
    var a, l := r / 256, r % 256;
    var q, m := a / 256, a % 256;
    assert r == 0x10000 * q + (m * 256 + l);
    DivModUnique(r, 0x10000, q, m * 256 + l);
  }

  /** The ticks from a load of TH0:TL0 with the reload bytes to the overflow. */
  function CycleTicks(fosc: int): (n: int)
    requires 0 <= fosc < U32_MOD
    ensures 1 <= n <= 0x10000
  {
    0x10000 - (ReloadHigh(fosc) * 256 + ReloadLow(fosc))
  }

  /**
   * A cycle lasts TICKS_PER_MS ticks taken modulo 65536 (a multiple of
   * 65536, zero included, lasts 65536), so exactly TICKS_PER_MS whenever it
   * is between 1 and 65536.
   */
  lemma CycleIsOneMs(fosc: int)
    requires 0 <= fosc < U32_MOD
    ensures var t := TicksPerMs(fosc);
      CycleTicks(fosc) == if t % 0x10000 == 0 then 0x10000 else t % 0x10000
    ensures 1 <= TicksPerMs(fosc) <= 0x10000 ==> CycleTicks(fosc) == TicksPerMs(fosc)
  {
    var t := TicksPerMs(fosc);
    var x := 0x10000 - t;
    ReloadBytes(fosc);
    ModShift(x, -(x / U32_MOD) * 0x10000, 0x10000);
    assert Reload(fosc) == x + 0x10000 * (-(x / U32_MOD) * 0x10000);
    ModShift(-t, 1, 0x10000);
    var q, r := t / 0x10000, t % 0x10000;
    if r == 0 {
      DivModUnique(-t, 0x10000, -q, 0);
    } else {
      DivModUnique(-t, 0x10000, -q - 1, 0x10000 - r);
    }
  }

  /** At 11.0592 MHz: 921 ticks per millisecond, a reload of 0xFC67, TH0 0xFC and TL0 0x67. */
  lemma DefaultReload()
    ensures TicksPerMs(FOSC_HZ) == 921 && Reload(FOSC_HZ) == 0xFC67
    ensures ReloadHigh(FOSC_HZ) == 0xFC && ReloadLow(FOSC_HZ) == 0x67
    ensures CycleTicks(FOSC_HZ) == 921
  {
    CycleIsOneMs(FOSC_HZ);
  }

  class Mcu {
    /** TMOD, TH0, TL0, TR0, TF0 and the level of P1.0 (true for high). */
    var tmod: bv8
    var th0: int
    var tl0: int
    var tr0: bool
    var tf0: bool
    var led: bool
    /** The timer ticks counted so far, and the overflows of Timer 0. */
    var ticks: nat
    var overflows: nat
    /** The oscillator frequency the program was built for. */
    const fosc: int

    ghost predicate Valid()
      reads this
    {
      0 <= th0 < U8_MOD && 0 <= tl0 < U8_MOD && 0 <= fosc < U32_MOD
    }

    /** The 16-bit count TH0:TL0. */
    function Count(): (c: int)
      requires Valid()
      reads this
      ensures 0 <= c < U16_MOD
    {
      th0 * 256 + tl0
    }

    /** Reset: P1 reads high, Timer 0 stopped with a clear flag, TMOD whatever the caller left in it. */
    constructor (f: int, mode: bv8)
      requires 0 <= f < U32_MOD
      ensures Valid() && fosc == f && tmod == mode && led
      ensures th0 == 0 && tl0 == 0 && !tr0 && !tf0 && ticks == 0 && overflows == 0
    {
      fosc := f;
      tmod, th0, tl0, tr0, tf0, led, ticks, overflows := mode, 0, 0, false, false, true, 0, 0;
    }

    /** timer0_init: Timer 1's nibble of TMOD is kept, Timer 0 gets mode 1, stopped with TF0 clear. */
    method Timer0Init()
      modifies this`tmod, this`tr0, this`tf0
      ensures tmod & 0xF0 == old(tmod) & 0xF0 && tmod & 0x0F == 0x01
      ensures tmod == (old(tmod) & 0xF0) | 0x01 && !tr0 && !tf0
    {
      tmod := (tmod & 0xF0) | 0x01;
      tr0 := false;
      tf0 := false;
    }

    /** One tick of running Timer 0 in mode 1: the count goes up by one and an overflow to 0 sets TF0. */
    method Tick()
      requires Valid() && tr0
      modifies this`th0, this`tl0, this`tf0, this`ticks, this`overflows
      ensures Valid() && ticks == old(ticks) + 1
      ensures old(Count()) == 0xFFFF ==> Count() == 0 && tf0 && overflows == old(overflows) + 1
      ensures old(Count()) < 0xFFFF ==> Count() == old(Count()) + 1 && tf0 == old(tf0) && overflows == old(overflows)
    {
      ticks := ticks + 1;
      if tl0 == 0xFF {
        tl0 := 0;
        if th0 == 0xFF {
          th0 := 0;
          tf0 := true;
          overflows := overflows + 1;
        } else {
          th0 := th0 + 1;
        }
      } else {
        tl0 := tl0 + 1;
      }
    }

    /** One pass of delay_ms's loop: load the reload bytes, run the timer until TF0, stop it and clear TF0. */
    method OneMs()
      requires Valid() && !tf0
      modifies this`th0, this`tl0, this`tr0, this`tf0, this`ticks, this`overflows
      ensures Valid() && !tr0 && !tf0
      ensures ticks == old(ticks) + CycleTicks(fosc) && overflows == old(overflows) + 1
    {
      var start := ReloadHigh(fosc) * 256 + ReloadLow(fosc);
      th0 := ReloadHigh(fosc);
      tl0 := ReloadLow(fosc);
      tr0 := true;
      while !tf0
        invariant Valid() && tr0
        invariant !tf0 ==> start <= Count() && ticks == old(ticks) + Count() - start
        invariant !tf0 ==> overflows == old(overflows)
        invariant tf0 ==> ticks == old(ticks) + 0x10000 - start && overflows == old(overflows) + 1
        decreases if tf0 then 0 else 0x10000 - Count()
      {
        Tick();
      }
      tr0 := false;
      tf0 := false;
    }

    /** delay_ms: exactly ms reload/overflow cycles, leaving Timer 0 stopped with TF0 clear. */
    method DelayMs(ms: int)
      requires Valid() && !tf0 && 0 <= ms < U16_MOD
      modifies this`th0, this`tl0, this`tr0, this`tf0, this`ticks, this`overflows
      ensures Valid() && !tf0 && (ms > 0 ==> !tr0) && (ms == 0 ==> tr0 == old(tr0))
      ensures overflows == old(overflows) + ms
      ensures ticks == old(ticks) + ms * CycleTicks(fosc)
    {
      var m := ms;
      while m > 0
        invariant 0 <= m <= ms && Valid() && !tf0
        invariant m < ms ==> !tr0
        invariant m == ms ==> tr0 == old(tr0)
        invariant overflows == old(overflows) + (ms - m)
        invariant ticks == old(ticks) + (ms - m) * CycleTicks(fosc)
      {
        m := m - 1;
        OneMs();
        MulSucc(ms - m - 1, CycleTicks(fosc));
      }
    }

    /** One pass of main's loop: the LED pin flips, then 500 ms go by. */
    method BlinkOnce()
      requires Valid() && !tf0
      modifies this`led, this`th0, this`tl0, this`tr0, this`tf0, this`ticks, this`overflows
      ensures Valid() && !tr0 && !tf0 && led == !old(led)
      ensures ticks == old(ticks) + 500 * CycleTicks(fosc) && overflows == old(overflows) + 500
    {
      led := !led;
      DelayMs(500);
    }
  }

  lemma MulSucc(k: int, c: int)
    ensures (k + 1) * c == k * c + c
  {
  }

  /** The LED level after n toggles from the off level (high, as the LED is active low). */
  function LedAfter(n: nat): (high: bool)
    ensures high <==> n % 2 == 0
  {
    if n == 0 then true else !LedAfter(n - 1)
  }

  /**
   * main: timer0_init, the LED off, then the first n passes of the endless
   * loop. After them the LED has toggled n times and 500 n milliseconds of
   * timer cycles have passed.
   */
  method Run(f: int, mode: bv8, n: nat) returns (m: Mcu)
    requires 0 <= f < U32_MOD
    ensures fresh(m) && m.Valid() && m.fosc == f
    ensures m.tmod == (mode & 0xF0) | 0x01 && !m.tr0 && !m.tf0
    ensures m.led == LedAfter(n) && m.overflows == 500 * n
    ensures m.ticks == n * (500 * CycleTicks(f))
  {
    m := new Mcu(f, mode);
    m.Timer0Init();
    m.led := true;
    var k := 0;
    var period := 500 * CycleTicks(f);
    while k < n
      invariant 0 <= k <= n && m.Valid() && !m.tr0 && !m.tf0 && m.fosc == f
      invariant m.tmod == (mode & 0xF0) | 0x01
      invariant m.led == LedAfter(k) && m.overflows == 500 * k
      invariant m.ticks == k * period
    {
      m.BlinkOnce();
      MulSucc(k, period);
      k := k + 1;
    }
  }
}
