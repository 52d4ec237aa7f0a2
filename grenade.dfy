// The grenade simulator lesson: eight active-low LEDs on PA0 .. PA7, an
// active-low buzzer, and an OLED showing a countdown with accelerating
// beeps, a chase of LEDs for the explosion and a fading pattern after it.
//
// GPIOA's output data register is a bv16 (a low pin lights its LED). The
// buzzer, the delays, the LED flashes and the lines shown on the OLED
// during the countdown are recorded as a trace of events; the OLED's
// drawing itself is left out.

module Grenade {

  import opened CInt

  const LED_COUNT: nat := 8

  /** Whether bit k of the port is high. */
  predicate High(odr: bv16, k: nat)
    requires k < 16
  {
    (odr >> k) & 1 == 1
  }

  /** LED k is lit when its pin is driven low. */
  predicate Lit(odr: bv16, k: nat)
    requires k < LED_COUNT
  {
    !High(odr, k)
  }

  /** Whether bit k of a pattern byte is set. */
  predicate Set(pattern: bv16, k: nat)
    requires k < 16
  {
    High(pattern, k)
  }

  /** LED_SetPattern's port value at one pin: the pattern bit inverted. */
  lemma PatternPin(pattern: bv16, k: nat)
    requires pattern < 0x100 && k < LED_COUNT
    ensures Lit((!pattern) & 0xFF, k) <==> Set(pattern, k)
  {
  }

  /** LED_Single's port value at one pin: only the chosen pin is low. */
  lemma SinglePin(index: nat, k: nat)
    requires index < LED_COUNT && k < LED_COUNT
    ensures Lit(!((1 as bv16) << index), k) <==> k == index
  {
  }

  /** The events of the countdown that the model records. */
  datatype Event =
    | Show(second: int, status: string, bar: int)
    | Beep(ms: int)
    | Delay(ms: int)
    | AllOn
    | AllOff

  /** The beep interval and beep length, in ms, for second i of the countdown. */
  function BeepTable(i: int): (r: (int, int))
    ensures 0 < r.1 < r.0 <= 800
    ensures i == 5 ==> r == (800, 100)
    ensures i == 4 ==> r == (600, 80)
    ensures i == 3 ==> r == (400, 60)
    ensures i == 2 ==> r == (250, 50)
    ensures i == 1 ==> r == (150, 40)
    ensures !(1 <= i <= 5) ==> r == (100, 30)
  {
    match i
    case 5 => (800, 100)
    case 4 => (600, 80)
    case 3 => (400, 60)
    case 2 => (250, 50)
    case 1 => (150, 40)
    case _ => (100, 30)
  }

  /** Later seconds beep at least as often. */
  lemma BeepsAccelerate(i: int)
    requires 2 <= i <= 5
    ensures BeepTable(i - 1).0 < BeepTable(i).0
  {
  }

  /** The number of beeps in one second: the least k with k * interval >= 1000. */
  function Beeps(interval: int): (k: int)
    requires 0 < interval
    ensures k >= 1 && k * interval >= 1000 && (k - 1) * interval < 1000
  {
    var k := (1000 + interval - 1) / interval;
    DivBounds(1000 + interval - 1, interval);
    assert k >= 1 by {
      if k < 1 {
        MulMono(k + 1, 1, interval);
      }
    }
    k
  }

  /** The least such count is unique. */
  lemma BeepsUnique(interval: int, k: int)
    requires 0 < interval && k * interval >= 1000 && (k - 1) * interval < 1000
    ensures k == Beeps(interval)
  {
    DivModUnique(1000 + interval - 1, interval, k, 1000 + interval - 1 - interval * k);
  }

  lemma BeepsExamples()
    ensures Beeps(800) == 2 && Beeps(600) == 2 && Beeps(400) == 3
    ensures Beeps(250) == 4 && Beeps(150) == 7 && Beeps(100) == 10
  {
  }

  /** The status line: armed above 3 seconds to go, then GET DOWN, then DANGER. */
  function Status(i: int): (s: string)
    ensures i >= 4 ==> s == "  Armed..."
    ensures 2 <= i <= 3 ==> s == "  GET DOWN!"
    ensures i < 2 ==> s == "  DANGER!!!"
  {
    if i >= 4 then "  Armed..." else if i >= 2 then "  GET DOWN!" else "  DANGER!!!"
  }

  /** The progress bar: two '#' for every second that has started. */
  function Bar(seconds: int, i: int): (n: int)
    requires 1 <= i <= seconds
    ensures 2 <= n <= 2 * seconds && n % 2 == 0
    ensures i == seconds ==> n == 2
    ensures i == 1 ==> n == 2 * seconds
  {
    (seconds - i + 1) * 2
  }

  /** One pass of the beep loop: a beep, the rest of the interval, a 20 ms flash of all LEDs. */
  function BeepCycle(interval: int, duration: int): seq<Event>
  {
    [Beep(duration), Delay(interval - duration), AllOn, Delay(20), AllOff]
  }

  function Repeat(s: seq<Event>, n: nat): (r: seq<Event>)
    ensures |r| == n * |s|
  {
    if n == 0 then [] else Repeat(s, n - 1) + s
  }

  /** What second i of a countdown from `seconds` records. */
  function Second(seconds: int, i: int): seq<Event>
    requires 1 <= i <= seconds
  {
    var (iv, dur) := BeepTable(i);
    [Show(i, Status(i), Bar(seconds, i))] + Repeat(BeepCycle(iv, dur), Beeps(iv))
  }

  /** The seconds top, top - 1, .., i + 1 one after another. */
  function CountdownTrace(seconds: int, top: int, i: int): seq<Event>
    requires 0 <= i <= top <= seconds
    decreases top - i
  {
    if i == top then [] else CountdownTrace(seconds, top, i + 1) + Second(seconds, i + 1)
  }

  /** Explosion round r waits 30 - 2 r ms per LED; the floor of 10 is never reached. */
  function ChaseDelay(round: int): (ms: int)
    requires 0 <= round < 10
    ensures 12 <= ms <= 30 && ms == 30 - 2 * round
  {
    var s := (30 - round * 2) % U8_MOD;
    if s < 10 then 10 else s
  }

  /** The fade pattern (1 << (i + 1)) - 1 for i = 7 down to 0. */
  function Fade(i: nat): (p: bv16)
    requires i < LED_COUNT
    ensures p < 0x100
  {
    ((1 as bv16) << (i + 1)) - 1
  }

  /** The fade pattern lights exactly the i + 1 lowest LEDs. */
  lemma FadeLights(i: nat, k: nat)
    requires i < LED_COUNT && k < LED_COUNT
    ensures Lit((!Fade(i)) & 0xFF, k) <==> k <= i
  {
    PatternPin(Fade(i), k);
  }

  class Board {
    /** GPIOA's output data register, and the recorded events. */
    var odr: bv16
    var trace: seq<Event>

    /** LED_Init: every LED off. */
    constructor ()
      ensures odr == 0x00FF && trace == []
    {
      odr, trace := 0x00FF, [];
    }

    /** LED_SetPattern: LED k is lit exactly when bit k of the pattern is set. */
    method SetPattern(pattern: bv16)
      requires pattern < 0x100
      modifies this`odr
      ensures odr == (!pattern) & 0xFF
    {
      odr := (!pattern) & 0xFF;
    }

    /** LED_Single: index 0 .. 7 lights that LED alone; any other index writes nothing. */
    method Single(index: nat)
      requires index < U8_MOD
      modifies this`odr
      ensures index < LED_COUNT ==> odr == !((1 as bv16) << index)
      ensures index >= LED_COUNT ==> odr == old(odr)
    {
      if index < LED_COUNT {
        odr := !((1 as bv16) << index);
      }
    }

    /**
     * The beep loop of one countdown second: beep cycles until the 16-bit
     * elapsed time reaches 1000 ms, that is, Beeps(interval) of them.
     */
    method BeepSecond(interval: int, duration: int)
      requires 0 < duration < interval <= 800
      modifies this`odr, this`trace
      ensures trace == old(trace) + Repeat(BeepCycle(interval, duration), Beeps(interval))
      ensures odr == 0x00FF
    {
      var elapsed := 0;
      var k := 0;
      while elapsed < 1000
        invariant 0 <= k && elapsed == k * interval && (k == 0 || (k - 1) * interval < 1000)
        invariant elapsed < 1000 + interval
        invariant trace == old(trace) + Repeat(BeepCycle(interval, duration), k)
        invariant k > 0 ==> odr == 0x00FF
        decreases 1000 - elapsed
      {
        trace := trace + [Beep(duration), Delay(interval - duration)];
        elapsed := U16(elapsed + interval);
        odr := 0x0000;
        trace := trace + [AllOn, Delay(20)];
        odr := 0x00FF;
        trace := trace + [AllOff];
        k := k + 1;
      }
      BeepsUnique(interval, k);
    }

    /**
     * Grenade_Countdown: the int8_t counter runs from seconds down to 1
     * (not at all when seconds does not fit int8_t), each second showing
     * its number, status and bar and then beeping at its rate.
     */
    method Countdown(seconds: int)
      requires 0 <= seconds < U8_MOD
      modifies this`odr, this`trace
      ensures I8(seconds) > 0 ==> trace == old(trace) + CountdownTrace(seconds, seconds, 0)
      ensures I8(seconds) <= 0 ==> trace == old(trace)
    {
      var i := I8(seconds);
      if i <= 0 {
        return;
      }
      assert i == seconds;
      while i > 0
        invariant 0 <= i <= seconds
        invariant trace == old(trace) + CountdownTrace(seconds, seconds, i)
      {
        ghost var before := trace;
        trace := trace + [Show(i, Status(i), Bar(seconds, i))];
        var (iv, dur) := BeepTable(i);
        BeepSecond(iv, dur);
        AppendSecond(old(trace), before, seconds, i, trace);
        i := i - 1;
      }
    }
  }

  /** The trace after one more second of the countdown loop. */
  lemma AppendSecond(start: seq<Event>, before: seq<Event>, seconds: int, i: int, after: seq<Event>)
    requires 1 <= i <= seconds && before == start + CountdownTrace(seconds, seconds, i)
    requires after == before + [Show(i, Status(i), Bar(seconds, i))] + Repeat(BeepCycle(BeepTable(i).0, BeepTable(i).1), Beeps(BeepTable(i).0))
    ensures after == start + CountdownTrace(seconds, seconds, i - 1)
  {
    var show := [Show(i, Status(i), Bar(seconds, i))];
    var beeps := Repeat(BeepCycle(BeepTable(i).0, BeepTable(i).1), Beeps(BeepTable(i).0));
    var done := CountdownTrace(seconds, seconds, i);
    assert Second(seconds, i) == show + beeps;
    assert CountdownTrace(seconds, seconds, i - 1) == done + (show + beeps);
    Assoc(before, show, beeps);
    Assoc(start, done, show + beeps);
  }

  lemma Assoc(a: seq<Event>, b: seq<Event>, c: seq<Event>)
    ensures a + b + c == a + (b + c)
  {
  }

  /** The demo's five-second countdown: seconds 5 .. 1 beep 2, 2, 3, 4 and 7 times. */
  lemma FiveSeconds()
    ensures Second(5, 5) == [Show(5, "  Armed...", 2)] + Repeat(BeepCycle(800, 100), 2)
    ensures Second(5, 1) == [Show(1, "  DANGER!!!", 10)] + Repeat(BeepCycle(150, 40), 7)
  {
  }
}
