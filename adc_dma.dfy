// The capstone's multi-channel ADC1 scan with circular DMA: up to four
// channels, each on its PA pin, converted in rank order into a buffer.
//
// The ADC and GPIO are modelled by what the driver configures: the stored
// channel count, the analog pin mask of GPIOA and the channel of each
// regular-sequence rank. Calibration and the conversion itself are left out.

module AdcDma {

  import opened CInt

  const MAX_CHANNELS: int := 4
  const PIN_CHANNELS: int := 8

  /** adc_channel_to_gpio_pin: channels 0 .. 7 are PA0 .. PA7; any other has no pin. */
  function ChannelMask(ch: int): (m: bv16)
    requires 0 <= ch < U8_MOD
    ensures ch < PIN_CHANNELS ==> m != 0
    ensures ch >= PIN_CHANNELS ==> m == 0
  {
    if ch <= 7 then (1 as bv16) << ch else 0
  }

  lemma ChannelMaskExamples()
    ensures ChannelMask(0) == 0x0001 && ChannelMask(3) == 0x0008 && ChannelMask(7) == 0x0080
    ensures ChannelMask(8) == 0 && ChannelMask(17) == 0
  {
  }

  /** Whether mask m selects pin p of GPIOA. */
  predicate Bit(m: bv16, p: nat)
    requires p < 16
  {
    (m >> p) & 1 == 1
  }

  /** A channel's mask selects its own pin and nothing else. */
  lemma BitOfMask(ch: int, p: nat)
    requires 0 <= ch < U8_MOD && p < 16
    ensures Bit(ChannelMask(ch), p) <==> ch < PIN_CHANNELS && p == ch
  {
  }

  /** OR-ing masks joins the pins they select. */
  lemma BitOfOr(a: bv16, b: bv16, p: nat)
    requires p < 16
    ensures Bit(a | b, p) <==> Bit(a, p) || Bit(b, p)
  {
    assert (a | b) >> p == (a >> p) | (b >> p);
  }

  /** The pins of the first n channels that have one. */
  function Wanted(channels: seq<int>, n: int): set<int>
    requires 0 <= n <= |channels|
  {
    set i | 0 <= i < n && 0 <= channels[i] < PIN_CHANNELS :: channels[i]
  }

  lemma WantedSnoc(channels: seq<int>, i: int)
    requires 0 <= i < |channels|
    ensures Wanted(channels, i + 1) == Wanted(channels, i) + (if 0 <= channels[i] < PIN_CHANNELS then {channels[i]} else {})
  {
  }

  /** Whether mask m selects exactly the pins in ps. */
  predicate Selects(m: bv16, ps: set<int>)
  {
    forall p: nat :: p < 16 ==> (Bit(m, p) <==> p in ps)
  }

  lemma SelectsNone()
    ensures Selects(0, {})
  {
    forall p: nat | p < 16
      ensures !Bit(0, p)
    {
    }
  }

  /** One more channel's mask adds its pin, if it has one. */
  lemma AddMask(pins: bv16, ps: set<int>, ch: int, next: bv16)
    requires 0 <= ch < U8_MOD && Selects(pins, ps) && next == pins | ChannelMask(ch)
    ensures Selects(next, ps + (if ch < PIN_CHANNELS then {ch} else {}))
  {
    forall p: nat | p < 16
      ensures Bit(next, p) <==> p in ps || (ch < PIN_CHANNELS && p == ch)
    {
      AddMaskAt(pins, p in ps, ch, next, p);
    }
  }

  /** AddMask at one pin p, whose old selection is known. */
  lemma AddMaskAt(pins: bv16, had: bool, ch: int, next: bv16, p: nat)
    requires 0 <= ch < U8_MOD && p < 16 && (Bit(pins, p) <==> had) && next == pins | ChannelMask(ch)
    ensures Bit(next, p) <==> had || (ch < PIN_CHANNELS && p == ch)
  {
    BitOfOr(pins, ChannelMask(ch), p);
    BitOfMask(ch, p);
  }

  /** OR-ing into the pins already analog keeps them and adds the new ones. */
  lemma AddPins(old_: bv16, pins: bv16, ps: set<int>, next: bv16)
    requires Selects(pins, ps) && next == old_ | pins
    ensures forall p: nat :: p < 16 ==> (Bit(next, p) <==> Bit(old_, p) || p in ps)
  {
    forall p: nat | p < 16
      ensures Bit(next, p) <==> Bit(old_, p) || p in ps
    {
      BitOfOr(old_, pins, p);
    }
  }

  /** The register's 16 regular-sequence ranks. */
  const RANKS: int := 16

  predicate Channels(channels: seq<int>)
  {
    forall i :: 0 <= i < |channels| ==> 0 <= channels[i] < U8_MOD
  }

  class Scanner {
    /** s_adc_count. */
    var count: int
    /** The GPIOA pins set to analog input, and the channel of each regular rank 1 .. count. */
    var analog: bv16
    var ranks: seq<int>

    ghost predicate Valid()
      reads this
    {
      |ranks| == RANKS
    }

    /** s_adc_count starts at 0, nothing configured; every rank holds its reset value, channel 0. */
    constructor ()
      ensures Valid() && count == 0 && analog == 0 && ranks == seq(RANKS, _ => 0)
    {
      count, analog, ranks := 0, 0, seq(RANKS, _ => 0);
    }

    /**
     * ADC_DMA_Init: a count of 0 returns before anything; a count above 4
     * is taken as 4. The pins of the first count channels become analog
     * inputs and channel i gets rank i + 1.
     */
    method Init(channels: seq<int>, n: int)
      requires Valid() && 0 <= n < U8_MOD && Min(n, MAX_CHANNELS) <= |channels| && Channels(channels)
      modifies this
      ensures Valid()
      ensures n == 0 ==> count == old(count) && analog == old(analog) && ranks == old(ranks)
      ensures n != 0 ==> count == Min(n, MAX_CHANNELS)
      ensures n != 0 ==> forall p: nat :: p < 16 ==> (Bit(analog, p) <==> Bit(old(analog), p) || p in Wanted(channels, count))
      ensures n != 0 ==> forall i :: 0 <= i < RANKS ==> ranks[i] == if i < count then channels[i] else old(ranks[i])
    {
      if n == 0 {
        return;
      }
      var c := n;
      if c > MAX_CHANNELS {
        c := MAX_CHANNELS;
      }
      var pins: bv16 := 0;
      var rk := ranks;
      var i := 0;
      SelectsNone();
      assert Wanted(channels, 0) == {};
      while i < c
        modifies {}
        invariant 0 <= i <= c && |rk| == RANKS
        invariant Selects(pins, Wanted(channels, i))
        invariant forall j :: 0 <= j < RANKS ==> rk[j] == if j < i then channels[j] else old(ranks[j])
      {
        AddMask(pins, Wanted(channels, i), channels[i], pins | ChannelMask(channels[i]));
        WantedSnoc(channels, i);
        pins := pins | ChannelMask(channels[i]);
        rk := rk[i := channels[i]];
        i := i + 1;
      }
      var a0 := analog;
      AddPins(a0, pins, Wanted(channels, c), a0 | pins);
      count, analog, ranks := c, a0 | pins, rk;
    }

    /** ADC_DMA_GetCount. */
    function GetCount(): (c: int)
      reads this
      ensures c == count
    {
      count
    }
  }
}
