// Bit-banged I2C master of lesson 10-1 (MyI2C.c): SCL on PB10, SDA on PB11,
// both open-drain, so writing 1 releases a line and the pull-up takes it high.
//
// The bus is an object whose methods change the two master outputs one at a
// time, exactly in the order of the C primitives. Every line write appends
// the pair of levels the master then drives to `trace`; every read of SDA
// appends the sampled pair to `samples`. A receiver's view of the bus is an
// independent state machine (`Run`) that turns a trace into START, STOP and
// data-bit symbols following sections 3.1.4 to 3.1.6 of the NXP I2C-bus
// specification UM10204, and `Frames` groups those symbols into bytes with
// their ninth (acknowledge) clock.

module MyI2C {

  /** The levels driven by the master after one line write (true = released, high). */
  datatype Level = Level(scl: bool, sda: bool)

  // ---------------------------------------------------------------------
  // Bytes and their bits, most significant first

  /**
   * The mask `0x80 >> i` that selects bit i in wire order (0 = most
   * significant, sent first), one single-place shift at a time so that proofs
   * need no shift by a variable amount; WeightShift shows it is that shift.
   */
  function Weight(i: nat): bv8
    requires i < 8
  {
    if i == 0 then 0x80 else Weight(i - 1) >> 1
  }

  lemma WeightShift(i: nat)
    requires i < 8
    ensures Weight(i) == (0x80 as bv8) >> i
  {
  }

  /** Bit i (0 = first on the wire) of a byte sent MSB first, as `!!(Byte & (0x80 >> i))`. */
  function BitAt(b: bv8, i: nat): bool
    requires i < 8
  {
    b & Weight(i) != 0
  }

  function BitsMsb(b: bv8): (s: seq<bool>)
    ensures |s| == 8
  {
    seq(8, i requires 0 <= i < 8 => BitAt(b, i))
  }

  function Mask(c: bool, m: bv8): bv8 { if c then m else 0 }

  /** The byte that `Byte |= 0x80 >> i` builds from the first n sampled levels. */
  function Pack(s: seq<bool>, n: nat): bv8
    requires n <= |s| && n <= 8
  {
    if n == 0 then 0 else Pack(s, n - 1) | Mask(s[n - 1], Weight(n - 1))
  }

  lemma PackEight(s: seq<bool>)
    requires |s| == 8
    ensures Pack(s, 8) == Mask(s[0], 0x80) | Mask(s[1], 0x40) | Mask(s[2], 0x20) | Mask(s[3], 0x10)
                        | Mask(s[4], 0x08) | Mask(s[5], 0x04) | Mask(s[6], 0x02) | Mask(s[7], 0x01)
  {
    assert Pack(s, 1) == Mask(s[0], 0x80);
    assert Pack(s, 2) == Pack(s, 1) | Mask(s[1], 0x40);
    assert Pack(s, 3) == Pack(s, 2) | Mask(s[2], 0x20);
    assert Pack(s, 4) == Pack(s, 3) | Mask(s[3], 0x10);
    assert Pack(s, 5) == Pack(s, 4) | Mask(s[4], 0x08);
    assert Pack(s, 6) == Pack(s, 5) | Mask(s[5], 0x04);
    assert Pack(s, 7) == Pack(s, 6) | Mask(s[6], 0x02);
  }

  /** One pass of the ReceiveByte loop adds bit i exactly when the sample is high. */
  lemma PackStep(s: seq<bool>, i: nat, byte: bv8, v: bool, next: bv8)
    requires i < |s| && i < 8 && byte == Pack(s, i) && v == s[i]
    requires next == if v then byte | Weight(i) else byte
    ensures next == Pack(s, i + 1)
  {
  }

  /** Reassembling the bits of a byte in wire order gives the byte back. */
  lemma {:induction false} PackBitsMsb(b: bv8)
    ensures Pack(BitsMsb(b), 8) == b
  {
    PackEight(BitsMsb(b));
  }

  /** Every eight-level sample sequence is the wire image of the byte it packs to. */
  lemma {:induction false} BitsMsbPack(s: seq<bool>)
    requires |s| == 8
    ensures BitsMsb(Pack(s, 8)) == s
  {
    PackEight(s);
  }

  // ---------------------------------------------------------------------
  // What the slave offers on SDA when the master reads

  /** The first n levels a slave offers; once its queue is exhausted SDA stays released. */
  function Offered(q: seq<bool>, n: nat): (s: seq<bool>)
    ensures |s| == n
    ensures forall i :: 0 <= i < n && i < |q| ==> s[i] == q[i]
    ensures forall i :: |q| <= i < n ==> s[i]
  {
    seq(n, i requires 0 <= i < n => if i < |q| then q[i] else true)
  }

  function Drop<T>(q: seq<T>, n: nat): (r: seq<T>)
    ensures n <= |q| ==> r == q[n..]
    ensures |q| <= n ==> r == []
  {
    if n <= |q| then q[n..] else []
  }

  lemma DropDrop<T>(q: seq<T>, a: nat, b: nat)
    ensures Drop(Drop(q, a), b) == Drop(q, a + b)
  {
  }

  /** The level the slave holds at its next read: the head of its queue, or released. */
  function Head(q: seq<bool>): (v: bool)
    ensures v == Offered(q, 1)[0]
  {
    if |q| > 0 then q[0] else true
  }

  lemma OfferedHead(q: seq<bool>, i: nat, n: nat)
    requires i < n
    ensures Head(Drop(q, i)) == Offered(q, n)[i]
  {
  }

  lemma OfferedDrop(q: seq<bool>, a: nat, n: nat)
    ensures Offered(Drop(q, a), n) == Offered(q, a + n)[a..]
  {
  }

  // ---------------------------------------------------------------------
  // Waveforms: the trace each primitive appends, given the SCL level before it

  /** MyI2C_Start: SDA released, SCL released, SDA pulled low, SCL pulled low. */
  function StartWave(scl0: bool): seq<Level>
  {
    [Level(scl0, true), Level(true, true), Level(true, false), Level(false, false)]
  }

  /** MyI2C_Stop, which is only entered with SCL low: SDA low, SCL released, SDA released. */
  function StopWave(): seq<Level>
  {
    [Level(false, false), Level(true, false), Level(true, true)]
  }

  /** One data clock entered with SCL low: SDA set to v, SCL released, SCL pulled low (SendAck, ReceiveAck, one SendByte bit). */
  function BitWave(v: bool): seq<Level>
  {
    [Level(false, v), Level(true, v), Level(false, v)]
  }

  /** The data clocks for a sequence of bits, one BitWave per bit in order. */
  function ByteWave(bits: seq<bool>): (w: seq<Level>)
    ensures |w| == 3 * |bits|
    decreases |bits|
  {
    if bits == [] then [] else ByteWave(bits[..|bits| - 1]) + BitWave(bits[|bits| - 1])
  }

  /** n clock pulses with SDA released: the reading part of ReceiveByte. */
  function Pulses(n: nat): (w: seq<Level>)
    ensures |w| == 2 * n
  {
    seq(2 * n, i requires 0 <= i < 2 * n => Level(i % 2 == 0, true))
  }

  /** One more pulse: SCL released, then pulled low, with SDA released throughout. */
  lemma PulsesSnoc(n: nat)
    ensures Pulses(n + 1) == Pulses(n) + [Level(true, true), Level(false, true)]
  {
    var w, w' := Pulses(n), Pulses(n + 1);
    assert forall i :: 0 <= i < 2 * n ==> w'[i] == w[i];
    assert w'[2 * n] == Level(true, true) && w'[2 * n + 1] == Level(false, true);
  }

  /** MyI2C_ReceiveByte: SDA released once, then eight clock pulses. */
  function ReceiveWave(): seq<Level>
  {
    [Level(false, true)] + Pulses(8)
  }

  /** Samples taken while SCL is high, one per level read. */
  function HighSamples(vs: seq<bool>): (s: seq<Level>)
    ensures |s| == |vs|
    decreases |vs|
  {
    if vs == [] then [] else HighSamples(vs[..|vs| - 1]) + [Level(true, vs[|vs| - 1])]
  }

  lemma HighSamplesSnoc(vs: seq<bool>, i: nat)
    requires i < |vs|
    ensures HighSamples(vs[..i + 1]) == HighSamples(vs[..i]) + [Level(true, vs[i])]
  {
    assert vs[..i + 1][..i] == vs[..i];
  }

  lemma {:induction false} HighSamplesAppend(a: seq<bool>, b: seq<bool>)
    ensures HighSamples(a + b) == HighSamples(a) + HighSamples(b)
    decreases |b|
  {
    if b == [] {
      assert a + b == a;
    } else {
      var b' := b[..|b| - 1];
      assert (a + b)[..|a + b| - 1] == a + b';
      HighSamplesAppend(a, b');
    }
  }

  lemma OfferedSplit(q: seq<bool>, m: nat, n: nat)
    ensures Offered(q, m + n) == Offered(q, m) + Offered(Drop(q, m), n)
  {
  }

  /** The samples of two consecutive reads are the samples of one longer read. */
  lemma SamplesCompose(q: seq<bool>, m: nat, n: nat)
    ensures HighSamples(Offered(q, m)) + HighSamples(Offered(Drop(q, m), n)) == HighSamples(Offered(q, m + n))
  {
    OfferedSplit(q, m, n);
    HighSamplesAppend(Offered(q, m), Offered(Drop(q, m), n));
  }

  // ---------------------------------------------------------------------
  // A receiver's decoder

  datatype Sym = Start | Stop | Bit(v: bool)
  datatype Pending = NoBit | Clocked(v: bool)

  /** prev: last levels seen; pending: the bit clocked in on the last rising SCL edge. */
  datatype Decoder = Decoder(prev: Level, pending: Pending, out: seq<Sym>)

  function Flush(p: Pending): seq<Sym>
  {
    if p.Clocked? then [Bit(p.v)] else []
  }

  /**
   * One observation. A rising SCL edge clocks SDA in as a data bit, which is
   * delivered when SCL falls again. An SDA change while SCL stays high is not
   * data: falling is a START and rising is a STOP, and it cancels the bit
   * clocked in on that high phase.
   */
  function Step(d: Decoder, l: Level): Decoder
  {
    if !d.prev.scl && l.scl then Decoder(l, Clocked(l.sda), d.out + Flush(d.pending))
    else if d.prev.scl && l.scl && d.prev.sda != l.sda then Decoder(l, NoBit, d.out + [if l.sda then Stop else Start])
    else if d.prev.scl && !l.scl then Decoder(l, NoBit, d.out + Flush(d.pending))
    else Decoder(l, d.pending, d.out)
  }

  function Run(d: Decoder, t: seq<Level>): Decoder
    decreases |t|
  {
    if t == [] then d else Run(Step(d, t[0]), t[1..])
  }

  lemma {:induction false} RunAppend(d: Decoder, t1: seq<Level>, t2: seq<Level>)
    ensures Run(d, t1 + t2) == Run(Run(d, t1), t2)
    decreases |t1|
  {
    if t1 == [] {
      assert t1 + t2 == t2;
    } else {
      assert (t1 + t2)[1..] == t1[1..] + t2;
      RunAppend(Step(d, t1[0]), t1[1..], t2);
    }
  }

  /** The decoder of a bus at rest with both lines high. */
  const IdleDecoder: Decoder := Decoder(Level(true, true), NoBit, [])

  function BitSyms(bits: seq<bool>): (s: seq<Sym>)
    ensures |s| == |bits|
    ensures forall i :: 0 <= i < |bits| ==> s[i] == Bit(bits[i])
  {
    seq(|bits|, i requires 0 <= i < |bits| => Bit(bits[i]))
  }

  /** START from idle, or from SCL low with no bit pending: exactly one START symbol. */
  lemma StartDecodes(d: Decoder)
    requires d.pending == NoBit
    requires d.prev.scl ==> d.prev.sda
    ensures Run(d, StartWave(d.prev.scl)) == Decoder(Level(false, false), NoBit, d.out + [Start])
  {
    var w := StartWave(d.prev.scl);
    assert w == [w[0]] + [w[1]] + [w[2]] + [w[3]];
    RunAppend(d, [w[0]], [w[1]] + [w[2]] + [w[3]]);
    var d1 := Run(d, [w[0]]);
    RunAppend(d1, [w[1]], [w[2]] + [w[3]]);
    var d2 := Run(d1, [w[1]]);
    RunAppend(d2, [w[2]], [w[3]]);
  }

  /** STOP after a data clock: exactly one STOP symbol and the bus at rest. */
  lemma StopDecodes(d: Decoder)
    requires d.pending == NoBit && !d.prev.scl
    ensures Run(d, StopWave()) == Decoder(Level(true, true), NoBit, d.out + [Stop])
  {
    var w := StopWave();
    assert w == [w[0]] + [w[1]] + [w[2]];
    RunAppend(d, [w[0]], [w[1]] + [w[2]]);
    RunAppend(Run(d, [w[0]]), [w[1]], [w[2]]);
  }

  /** One data clock entered with SCL low carries exactly the bit on SDA. */
  lemma BitDecodes(d: Decoder, v: bool)
    requires d.pending == NoBit && !d.prev.scl
    ensures Run(d, BitWave(v)) == Decoder(Level(false, v), NoBit, d.out + [Bit(v)])
  {
    var w := BitWave(v);
    assert w == [w[0]] + [w[1]] + [w[2]];
    RunAppend(d, [w[0]], [w[1]] + [w[2]]);
    RunAppend(Run(d, [w[0]]), [w[1]], [w[2]]);
  }

  /** The data clocks of SendByte carry the bits in order, one symbol per clock. */
  lemma {:induction false} ByteDecodes(d: Decoder, bits: seq<bool>)
    requires d.pending == NoBit && !d.prev.scl
    requires bits != []
    ensures Run(d, ByteWave(bits)) == Decoder(Level(false, bits[|bits| - 1]), NoBit, d.out + BitSyms(bits))
    decreases |bits|
  {
    var n := |bits|;
    if n == 1 {
      assert bits == [] + [bits[0]];
      assert bits[..0] == [];
      assert ByteWave(bits) == BitWave(bits[0]);
      BitDecodes(d, bits[0]);
      assert BitSyms(bits) == [Bit(bits[0])];
    } else {
      var init := bits[..n - 1];
      ByteDecodes(d, init);
      RunAppend(d, ByteWave(init), BitWave(bits[n - 1]));
      var d1 := Run(d, ByteWave(init));
      BitDecodes(d1, bits[n - 1]);
      assert BitSyms(bits) == BitSyms(init) + [Bit(bits[n - 1])];
    }
  }

  lemma {:induction false} PulsesDecode(d: Decoder, n: nat)
    requires d.pending == NoBit && !d.prev.scl && d.prev.sda
    ensures Run(d, Pulses(n)) == Decoder(Level(false, true), NoBit, d.out + BitSyms(Offered([], n)))
  {
    if n == 0 {
      assert d.prev == Level(false, true);
      assert BitSyms(Offered([], 0)) == [];
    } else {
      PulsesDecode(d, n - 1);
      PulsesSnoc(n - 1);
      var d1 := Run(d, Pulses(n - 1));
      RunAppend(d, Pulses(n - 1), [Level(true, true), Level(false, true)]);
      RunAppend(d1, [Level(true, true)], [Level(false, true)]);
      assert BitSyms(Offered([], n)) == BitSyms(Offered([], n - 1)) + [Bit(true)];
    }
  }

  /** While the master reads a byte it drives nothing: its side of SDA shows eight released bits. */
  lemma ReceiveDecodes(d: Decoder)
    requires d.pending == NoBit && !d.prev.scl
    ensures Run(d, ReceiveWave()) == Decoder(Level(false, true), NoBit, d.out + BitSyms(Offered([], 8)))
  {
    RunAppend(d, [Level(false, true)], Pulses(8));
    PulsesDecode(Run(d, [Level(false, true)]), 8);
  }

  // ---------------------------------------------------------------------
  // Grouping symbols into frame tokens

  /** A START, a STOP, or eight data bits with the ninth (acknowledge) clock; Junk ends the parse. */
  datatype Token = TStart | TStop | TByte(b: bv8, ninth: bool) | Junk

  predicate AllBits(s: seq<Sym>)
  {
    forall i :: 0 <= i < |s| ==> s[i].Bit?
  }

  function Values(s: seq<Sym>): (vs: seq<bool>)
    requires AllBits(s)
    ensures |vs| == |s|
  {
    seq(|s|, i requires 0 <= i < |s| && AllBits(s) => s[i].v)
  }

  function Frames(s: seq<Sym>): seq<Token>
    decreases |s|
  {
    if s == [] then []
    else if s[0] == Start then [TStart] + Frames(s[1..])
    else if s[0] == Stop then [TStop] + Frames(s[1..])
    else if |s| >= 9 && AllBits(s[..9]) then [TByte(Pack(Values(s[..8]), 8), s[8].v)] + Frames(s[9..])
    else [Junk]
  }

  lemma FramesStart(rest: seq<Sym>)
    ensures Frames([Start] + rest) == [TStart] + Frames(rest)
  {
    assert ([Start] + rest)[1..] == rest;
  }

  lemma FramesStop(rest: seq<Sym>)
    ensures Frames([Stop] + rest) == [TStop] + Frames(rest)
  {
    assert ([Stop] + rest)[1..] == rest;
  }

  /** Eight bits of a byte and its acknowledge clock form one byte token holding that byte. */
  lemma FramesByte(b: bv8, ninth: bool, rest: seq<Sym>)
    ensures Frames(BitSyms(BitsMsb(b)) + [Bit(ninth)] + rest) == [TByte(b, ninth)] + Frames(rest)
  {
    var s := BitSyms(BitsMsb(b)) + [Bit(ninth)] + rest;
    assert s[..9] == BitSyms(BitsMsb(b)) + [Bit(ninth)];
    assert s[..8] == BitSyms(BitsMsb(b));
    assert Values(s[..8]) == BitsMsb(b);
    PackBitsMsb(b);
    assert s[9..] == rest;
    assert s[0] == Bit(BitsMsb(b)[0]);
  }

  // ---------------------------------------------------------------------
  // The bus

  class Bus {
    /** Master outputs: true = released. */
    var scl: bool
    var sda: bool
    /** Levels the slave holds on SDA at successive master reads (wired-AND with the master). */
    var slave: seq<bool>
    var trace: seq<Level>
    var samples: seq<Level>

    /** Pins before MyI2C_Init, with a slave that will offer `input`. */
    constructor (scl0: bool, sda0: bool, input: seq<bool>)
      ensures scl == scl0 && sda == sda0 && slave == input
      ensures trace == [] && samples == []
    {
      scl, sda, slave := scl0, sda0, input;
      trace, samples := [], [];
    }

    /** MyI2C_W_SCL. The 10 us settle delay is not modelled. */
    method WriteScl(v: bool)
      modifies this`scl, this`trace
      ensures scl == v
      ensures trace == old(trace) + [Level(v, sda)]
    {
      scl := v;
      trace := trace + [Level(scl, sda)];
    }

    /** MyI2C_W_SDA. */
    method WriteSda(v: bool)
      modifies this`sda, this`trace
      ensures sda == v
      ensures trace == old(trace) + [Level(scl, v)]
    {
      sda := v;
      trace := trace + [Level(scl, sda)];
    }

    /** MyI2C_R_SDA: the line is low when either side pulls it low. */
    method ReadSda() returns (v: bool)
      modifies this`slave, this`samples
      ensures v == (sda && Head(old(slave)))
      ensures slave == Drop(old(slave), 1)
      ensures samples == old(samples) + [Level(scl, v)]
    {
      v := sda && Head(slave);
      slave := Drop(slave, 1);
      samples := samples + [Level(scl, v)];
    }

    /** MyI2C_Init: both pins set high at once (GPIO_SetBits), leaving the bus idle. */
    method Init()
      modifies this`scl, this`sda, this`trace
      ensures scl && sda
      ensures trace == old(trace) + [Level(true, true)]
    {
      scl, sda := true, true;
      trace := trace + [Level(scl, sda)];
    }

    /** MyI2C_Start. */
    method Start()
      modifies this`scl, this`sda, this`trace
      ensures !scl && !sda
      ensures trace == old(trace) + StartWave(old(scl))
    {
      WriteSda(true);
      WriteScl(true);
      WriteSda(false);
      WriteScl(false);
    }

    /** MyI2C_Stop. Every caller enters it with SCL low, after an acknowledge clock. */
    method Stop()
      requires !scl
      modifies this`scl, this`sda, this`trace
      ensures scl && sda
      ensures trace == old(trace) + StopWave()
    {
      WriteSda(false);
      WriteScl(true);
      WriteSda(true);
    }

    /** MyI2C_SendByte: eight clocks, MSB first. Entered with SCL low, after START or an acknowledge clock. */
    method SendByte(b: bv8)
      requires !scl
      modifies this`scl, this`sda, this`trace
      ensures !scl
      ensures trace == old(trace) + ByteWave(BitsMsb(b))
    {
      ghost var bits, t0 := BitsMsb(b), trace;
      var i := 0;
      while i < 8
        invariant 0 <= i <= 8 && !scl
        invariant trace == t0 + ByteWave(bits[..i])
      {
        SendBit(BitAt(b, i));
        assert bits[..i + 1][..i] == bits[..i];
        i := i + 1;
      }
      assert bits[..8] == bits;
    }

    /** One pass of the SendByte loop: SDA set to the bit, SCL released, SCL pulled low. */
    method SendBit(v: bool)
      requires !scl
      modifies this`scl, this`sda, this`trace
      ensures !scl && sda == v
      ensures trace == old(trace) + BitWave(v)
    {
      WriteSda(v);
      WriteScl(true);
      WriteScl(false);
    }

    /**
     * One pass of the ReceiveByte loop, entered with SDA released: SCL
     * released, SDA sampled into bit i, SCL pulled low. When the byte so far
     * packs the first i levels of s and the slave offers s[i], the result
     * packs the first i + 1.
     */
    method ReceiveBit(byte: bv8, i: nat, ghost s: seq<bool>) returns (next: bv8)
      requires i < 8 && sda
      requires |s| == 8 && byte == Pack(s, i) && Head(slave) == s[i]
      modifies this`scl, this`trace, this`slave, this`samples
      ensures !scl
      ensures next == Pack(s, i + 1)
      ensures slave == Drop(old(slave), 1)
      ensures trace == old(trace) + [Level(true, true), Level(false, true)]
      ensures samples == old(samples) + [Level(true, s[i])]
    {
      next := byte;
      WriteScl(true);
      var v := ReadSda();
      if v {
        next := next | Weight(i);
      }
      assert v == s[i];
      PackStep(s, i, byte, v, next);
      WriteScl(false);
    }

    /** MyI2C_ReceiveByte: SDA released, then one sample per clock high phase, MSB first. */
    method ReceiveByte() returns (b: bv8)
      requires !scl
      modifies this`scl, this`sda, this`trace, this`slave, this`samples
      ensures !scl && sda
      ensures b == Pack(Offered(old(slave), 8), 8)
      ensures slave == Drop(old(slave), 8)
      ensures trace == old(trace) + ReceiveWave()
      ensures samples == old(samples) + HighSamples(Offered(old(slave), 8))
    {
      ghost var q, t0, s0 := slave, trace, samples;
      ghost var offered := Offered(q, 8);
      b := 0;
      WriteSda(true);
      var i := 0;
      while i < 8
        invariant 0 <= i <= 8 && sda && !scl
        invariant b == Pack(offered, i)
        invariant slave == Drop(q, i)
        invariant trace == t0 + [Level(false, true)] + Pulses(i)
        invariant samples == s0 + HighSamples(offered[..i])
      {
        assert Head(slave) == offered[i] by { OfferedHead(q, i, 8); }
        b := ReceiveBit(b, i, offered);
        assert trace == t0 + [Level(false, true)] + Pulses(i + 1) by { PulsesSnoc(i); }
        assert samples == s0 + HighSamples(offered[..i + 1]) by { HighSamplesSnoc(offered, i); }
        assert slave == Drop(q, i + 1) by { DropDrop(q, i, 1); }
        i := i + 1;
      }
      assert offered[..8] == offered;
    }

    /** MyI2C_SendAck: one clock with SDA at the acknowledge bit (nonzero = NACK). */
    method SendAck(ackBit: bv8)
      requires !scl
      modifies this`scl, this`sda, this`trace
      ensures !scl && sda == (ackBit != 0)
      ensures trace == old(trace) + BitWave(ackBit != 0)
    {
      WriteSda(ackBit != 0);
      WriteScl(true);
      WriteScl(false);
    }

    /** MyI2C_ReceiveAck: SDA released and sampled once while SCL is high; no retry, no timeout. */
    method ReceiveAck() returns (ackBit: bv8)
      requires !scl
      modifies this`scl, this`sda, this`trace, this`slave, this`samples
      ensures !scl && sda
      ensures ackBit == if Head(old(slave)) then 1 else 0
      ensures slave == Drop(old(slave), 1)
      ensures trace == old(trace) + BitWave(true)
      ensures samples == old(samples) + HighSamples(Offered(old(slave), 1))
    {
      WriteSda(true);
      WriteScl(true);
      var v := ReadSda();
      ackBit := if v then 1 else 0;
      WriteScl(false);
    }
  }

  /** A slave that drives the eight bits of v during a ReceiveByte is read as exactly v. */
  lemma {:induction false} ReceiveDriven(q: seq<bool>, v: bv8)
    requires |q| >= 8 && q[..8] == BitsMsb(v)
    ensures Pack(Offered(q, 8), 8) == v
  {
    assert Offered(q, 8) == BitsMsb(v);
    PackBitsMsb(v);
  }

  /** A slave that stays silent lets the pull-up win: every bit reads as 1. */
  lemma {:induction false} ReceiveReleased(q: seq<bool>)
    requires q == []
    ensures Pack(Offered(q, 8), 8) == 0xFF
  {
    PackEight(Offered(q, 8));
  }
}
