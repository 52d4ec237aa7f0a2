// The capstone's TIM2 PWM driver: one shared period (the auto-reload
// value) and four compare channels, CH1 .. CH4 on PA0 .. PA3.
//
// The timer is modelled by the registers the driver writes: the prescaler,
// the auto-reload value, the four compare registers, and the set of PA
// pins switched to the alternate-function output.

module PwmTim2 {

  import opened CInt

  const CHANNELS: int := 4

  /** The PA pin of a channel: CH1 .. CH4 on PA0 .. PA3, no pin for any other number. */
  function ChannelPin(ch: int): (p: Option<int>)
    ensures p.Some? <==> 1 <= ch <= CHANNELS
    ensures p.Some? ==> 0 <= p.value < CHANNELS
  {
    if 1 <= ch <= CHANNELS then Some(ch - 1) else None
  }

  /** Different channels never share a pin. */
  lemma ChannelPinInjective(a: int, b: int)
    requires ChannelPin(a).Some? && ChannelPin(a) == ChannelPin(b)
    ensures a == b
  {
  }

  /** The compare value a requested one becomes: never above the period. */
  function Clip(compare: int, period: int): (c: int)
    requires 0 <= compare < U16_MOD && 0 <= period < U16_MOD
    ensures 0 <= c <= period && c <= compare
    ensures compare <= period ==> c == compare
    ensures compare > period ==> c == period
  {
    if compare > period then period else compare
  }

  class Tim2 {
    /** s_period, and the prescaler and auto-reload registers. */
    var period: int
    var psc: int
    var arr: int
    /** TIM2->CCR1 .. CCR4 as ccr[0] .. ccr[3]. */
    var ccr: seq<int>
    /** The PA pins configured for PWM output. */
    var pins: set<int>

    ghost predicate Valid()
      reads this
    {
      0 <= period < U16_MOD && |ccr| == CHANNELS
      && (forall i :: 0 <= i < CHANNELS ==> 0 <= ccr[i] < U16_MOD)
    }

    /** s_period starts at 0; the registers hold their reset values. */
    constructor ()
      ensures Valid() && period == 0 && ccr == [0, 0, 0, 0] && pins == {}
    {
      period, psc, arr := 0, 0, 0;
      ccr := [0, 0, 0, 0];
      pins := {};
    }

    /** PWM_TIM2_Init: the period is recorded and programmed with the prescaler. */
    method Init(prescaler: int, period: int)
      requires Valid() && 0 <= prescaler < U16_MOD && 0 <= period < U16_MOD
      modifies this`period, this`psc, this`arr
      ensures Valid() && this.period == period && arr == period && psc == prescaler
    {
      this.period := period;
      psc, arr := prescaler, period;
    }

    /** PWM_TIM2_GetPeriod. */
    function GetPeriod(): (p: int)
      reads this
      requires Valid()
      ensures 0 <= p < U16_MOD && p == period
    {
      period
    }

    /**
     * PWM_TIM2_EnableChannel: channels 1 .. 4 get their pin and start with
     * compare 0; any other number returns before configuring anything.
     */
    method EnableChannel(ch: int)
      requires Valid()
      modifies this`ccr, this`pins
      ensures Valid()
      ensures match ChannelPin(ch)
        case None => ccr == old(ccr) && pins == old(pins)
        case Some(p) => pins == old(pins) + {p} && ccr == old(ccr)[ch - 1 := 0]
    {
      var pin;
      if ch == 1 {
        pin := 0;
      } else if ch == 2 {
        pin := 1;
      } else if ch == 3 {
        pin := 2;
      } else if ch == 4 {
        pin := 3;
      } else {
        return;
      }
      pins := pins + {pin};
      ccr := ccr[ch - 1 := 0];
    }

    /**
     * PWM_TIM2_SetCompare: the value is clipped to the period and written
     * to the channel's compare register; an unknown channel writes nothing.
     */
    method SetCompare(ch: int, compare: int)
      requires Valid() && 0 <= compare < U16_MOD
      modifies this`ccr
      ensures Valid()
      ensures 1 <= ch <= CHANNELS ==> ccr == old(ccr)[ch - 1 := Clip(compare, period)]
      ensures !(1 <= ch <= CHANNELS) ==> ccr == old(ccr)
    {
      var c := compare;
      if c > period {
        c := period;
      }
      if ch == 1 {
        ccr := ccr[0 := c];
      } else if ch == 2 {
        ccr := ccr[1 := c];
      } else if ch == 3 {
        ccr := ccr[2 := c];
      } else if ch == 4 {
        ccr := ccr[3 := c];
      }
    }
  }
}
