// MPU6050 register access over the bit-banged bus of lesson 10-1 (MPU6050.c).
//
// Register addresses follow the MPU-6050 register map; the header that
// defines them (MPU6050_Reg.h) is not part of this model.

module Mpu6050Regs {
  import opened CInt

  const ADDRESS: bv8 := 0xD0
  const SMPLRT_DIV: bv8 := 0x19
  const CONFIG: bv8 := 0x1A
  const GYRO_CONFIG: bv8 := 0x1B
  const ACCEL_CONFIG: bv8 := 0x1C
  const ACCEL_XOUT_H: bv8 := 0x3B
  const ACCEL_XOUT_L: bv8 := 0x3C
  const ACCEL_YOUT_H: bv8 := 0x3D
  const ACCEL_YOUT_L: bv8 := 0x3E
  const ACCEL_ZOUT_H: bv8 := 0x3F
  const ACCEL_ZOUT_L: bv8 := 0x40
  const GYRO_XOUT_H: bv8 := 0x43
  const GYRO_XOUT_L: bv8 := 0x44
  const GYRO_YOUT_H: bv8 := 0x45
  const GYRO_YOUT_L: bv8 := 0x46
  const GYRO_ZOUT_H: bv8 := 0x47
  const GYRO_ZOUT_L: bv8 := 0x48
  const PWR_MGMT_1: bv8 := 0x6B
  const PWR_MGMT_2: bv8 := 0x6C
  const WHO_AM_I: bv8 := 0x75

  /** The register writes of MPU6050_Init, in order. */
  const InitWrites: seq<(bv8, bv8)> :=
    [(PWR_MGMT_1, 0x01), (PWR_MGMT_2, 0x00), (SMPLRT_DIV, 0x09),
     (CONFIG, 0x06), (GYRO_CONFIG, 0x18), (ACCEL_CONFIG, 0x18)]

  /** `(DataH << 8) | DataL` stored in an int16_t: the 16-bit pattern read as two's complement. */
  function Combine(h: bv8, l: bv8): int
  {
    Join(h as int, l as int)
  }

  /** The int16_t whose high and low byte are the numbers hi and lo. */
  function Join(hi: int, lo: int): (v: int)
    requires 0 <= hi < 256 && 0 <= lo < 256
    ensures -0x8000 <= v < 0x8000
  {
    var u := hi * 256 + lo;
    if u >= 0x8000 then u - U16_MOD else u
  }

  /** The high and low byte of an int16_t, as the numbers 0 to 255. */
  function Split(v: int): (p: (int, int))
    requires -0x8000 <= v < 0x8000
    ensures 0 <= p.0 < 256 && 0 <= p.1 < 256
  {
    var u := if v < 0 then v + U16_MOD else v;
    (u / 256, u % 256)
  }

  lemma DivMod256(hi: int, lo: int)
    requires 0 <= hi < 256 && 0 <= lo < 256
    ensures (hi * 256 + lo) / 256 == hi && (hi * 256 + lo) % 256 == lo
  {
  }

  /** Every byte pair gives an int16, and the pair can be recovered from it. */
  lemma CombineSplit(h: bv8, l: bv8)
    ensures -0x8000 <= Combine(h, l) < 0x8000
    ensures Split(Combine(h, l)) == (h as int, l as int)
  {
    JoinSplit(h as int, l as int);
  }

  lemma JoinSplit(hi: int, lo: int)
    requires 0 <= hi < 256 && 0 <= lo < 256
    ensures Split(Join(hi, lo)) == (hi, lo)
  {
    var u := hi * 256 + lo;
    DivMod256(hi, lo);
    if u >= 0x8000 {
      assert Join(hi, lo) == u - U16_MOD < 0;
    } else {
      assert Join(hi, lo) == u;
    }
  }

  /** Every int16 value is the combination of exactly one byte pair. */
  lemma SplitCombine(v: int)
    requires -0x8000 <= v < 0x8000
    ensures Join(Split(v).0, Split(v).1) == v
  {
    var u := if v < 0 then v + U16_MOD else v;
    assert (u / 256) * 256 + u % 256 == u;
  }

  /** The sign lives in bit 7 of the high byte. */
  lemma CombineSign(h: bv8, l: bv8)
    ensures Combine(h, l) < 0 <==> h as int >= 0x80
  {
    DivMod256(h as int, l as int);
  }

  lemma CombineExamples()
    ensures Combine(0xFF, 0x00) == -256 && Combine(0x7F, 0xFF) == 32767 && Combine(0x80, 0x00) == -32768
  {
  }
}

module Mpu6050Soft {
  import opened MyI2C
  import opened Mpu6050Regs

  /** The eight data clocks of byte b followed by one acknowledge clock with SDA at `ack`. */
  function ByteAckWave(b: bv8, ack: bool): seq<Level>
  {
    ByteWave(BitsMsb(b)) + BitWave(ack)
  }

  function ByteAckSyms(b: bv8, ack: bool): seq<Sym>
  {
    BitSyms(BitsMsb(b)) + [Bit(ack)]
  }

  /** The master's side of MPU6050_WriteReg: the slave's acknowledge clocks show SDA released. */
  function WriteRegWave(scl0: bool, reg: bv8, data: bv8): seq<Level>
  {
    StartWave(scl0) + (ByteAckWave(ADDRESS, true) + (ByteAckWave(reg, true) + (ByteAckWave(data, true) + StopWave())))
  }

  /** The master's side of MPU6050_ReadReg, with the repeated START and the final NACK clock. */
  function ReadRegWave(scl0: bool, reg: bv8): seq<Level>
  {
    SelectWave(scl0, reg) + FetchWave()
  }

  /** The write phase of ReadReg: START, 0xD0 and the register address, with no STOP. */
  function SelectWave(scl0: bool, reg: bv8): seq<Level>
  {
    StartWave(scl0) + (ByteAckWave(ADDRESS, true) + ByteAckWave(reg, true))
  }

  /** The read phase: repeated START, 0xD1, the received byte, SendAck(1) and STOP. */
  function FetchWave(): seq<Level>
  {
    StartWave(false) + (ByteAckWave(ADDRESS | 0x01, true) + (ReceiveWave() + (BitWave(true) + StopWave())))
  }

  function WriteRegSyms(reg: bv8, data: bv8): seq<Sym>
  {
    [Start] + (ByteAckSyms(ADDRESS, true) + (ByteAckSyms(reg, true) + (ByteAckSyms(data, true) + [Stop])))
  }

  function ReadRegSyms(reg: bv8): seq<Sym>
  {
    SelectSyms(reg) + FetchSyms()
  }

  function SelectSyms(reg: bv8): seq<Sym>
  {
    [Start] + (ByteAckSyms(ADDRESS, true) + ByteAckSyms(reg, true))
  }

  function FetchSyms(): seq<Sym>
  {
    [Start] + (ByteAckSyms(ADDRESS | 0x01, true) + (ByteAckSyms(0xFF, true) + [Stop]))
  }

  lemma ByteAckDecodes(d: Decoder, b: bv8, ack: bool)
    requires d.pending == NoBit && !d.prev.scl
    ensures Run(d, ByteAckWave(b, ack)) == Decoder(Level(false, ack), NoBit, d.out + ByteAckSyms(b, ack))
  {
    ByteDecodes(d, BitsMsb(b));
    RunAppend(d, ByteWave(BitsMsb(b)), BitWave(ack));
    BitDecodes(Run(d, ByteWave(BitsMsb(b))), ack);
  }

  lemma Regroup3<T>(a: seq<T>, b: seq<T>, c: seq<T>)
    ensures a + b + c == a + (b + c)
  {
  }

  lemma Regroup5<T>(o: seq<T>, a: seq<T>, b: seq<T>, c: seq<T>, e: seq<T>)
    ensures o + a + b + c + e == o + (a + (b + (c + e)))
  {
  }

  lemma RegroupFrame<T>(s: seq<T>, a: seq<T>, b: seq<T>, c: seq<T>, t: seq<T>, r: seq<T>)
    ensures (s + (a + (b + (c + t)))) + r == s + (a + (b + (c + (t + r))))
  {
  }

  lemma RegroupRead<T>(s: seq<T>, a: seq<T>, b: seq<T>, c: seq<T>, e: seq<T>, t: seq<T>)
    ensures (s + (a + b)) + (s + (c + (e + t))) == s + (a + (b + (s + (c + (e + t)))))
  {
  }

  /** Decoding two consecutive pieces of trace. */
  lemma Then(d: Decoder, w1: seq<Level>, d1: Decoder, w2: seq<Level>, d2: Decoder)
    requires Run(d, w1) == d1 && Run(d1, w2) == d2
    ensures Run(d, w1 + w2) == d2
  {
    RunAppend(d, w1, w2);
  }

  /** What a receiver decodes from WriteReg, starting from an idle bus or one with SCL low. */
  lemma WriteRegDecodes(d: Decoder, reg: bv8, data: bv8)
    requires d.pending == NoBit && (d.prev.scl ==> d.prev.sda)
    ensures Run(d, WriteRegWave(d.prev.scl, reg, data)) == Decoder(Level(true, true), NoBit, d.out + WriteRegSyms(reg, data))
  {
    var w0, w1, w2, w3, w4 := StartWave(d.prev.scl), ByteAckWave(ADDRESS, true), ByteAckWave(reg, true), ByteAckWave(data, true), StopWave();
    var a, b, c := ByteAckSyms(ADDRESS, true), ByteAckSyms(reg, true), ByteAckSyms(data, true);
    var d1 := Decoder(Level(false, false), NoBit, d.out + [Start]);
    var d2 := Decoder(Level(false, true), NoBit, d1.out + a);
    var d3 := Decoder(Level(false, true), NoBit, d2.out + b);
    var d4 := Decoder(Level(false, true), NoBit, d3.out + c);
    var d5 := Decoder(Level(true, true), NoBit, d4.out + [Stop]);
    assert Run(d, w0) == d1 by { StartDecodes(d); }
    assert Run(d1, w1) == d2 by { ByteAckDecodes(d1, ADDRESS, true); }
    assert Run(d2, w2) == d3 by { ByteAckDecodes(d2, reg, true); }
    assert Run(d3, w3) == d4 by { ByteAckDecodes(d3, data, true); }
    assert Run(d4, w4) == d5 by { StopDecodes(d4); }
    Then(d3, w3, d4, w4, d5);
    Then(d2, w2, d3, w3 + w4, d5);
    Then(d1, w1, d2, w2 + (w3 + w4), d5);
    Then(d, w0, d1, w1 + (w2 + (w3 + w4)), d5);
    assert d5.out == d.out + [Start] + a + b + (c + [Stop]) by {
      Regroup3(d.out + [Start] + a + b, c, [Stop]);
    }
    Regroup5(d.out, [Start], a, b, c + [Stop]);
  }

  lemma ReleasedByte()
    ensures BitSyms(Offered([], 8)) + [Bit(true)] == ByteAckSyms(0xFF, true)
  {
    ReceiveReleased([]);
    BitsMsbPack(Offered([], 8));
  }

  lemma SelectDecodes(d: Decoder, reg: bv8)
    requires d.pending == NoBit && (d.prev.scl ==> d.prev.sda)
    ensures Run(d, SelectWave(d.prev.scl, reg)) == Decoder(Level(false, true), NoBit, d.out + SelectSyms(reg))
  {
    var w0, w1, w2 := StartWave(d.prev.scl), ByteAckWave(ADDRESS, true), ByteAckWave(reg, true);
    var a, b := ByteAckSyms(ADDRESS, true), ByteAckSyms(reg, true);
    var d1 := Decoder(Level(false, false), NoBit, d.out + [Start]);
    var d2 := Decoder(Level(false, true), NoBit, d1.out + a);
    var d3 := Decoder(Level(false, true), NoBit, d2.out + b);
    assert Run(d, w0) == d1 by { StartDecodes(d); }
    assert Run(d1, w1) == d2 by { ByteAckDecodes(d1, ADDRESS, true); }
    assert Run(d2, w2) == d3 by { ByteAckDecodes(d2, reg, true); }
    Then(d1, w1, d2, w2, d3);
    Then(d, w0, d1, w1 + w2, d3);
    Regroup3(d.out + [Start], a, b);
    Regroup3(d.out, [Start], a + b);
  }

  lemma FetchDecodes(d: Decoder)
    requires d.pending == NoBit && !d.prev.scl
    ensures Run(d, FetchWave()) == Decoder(Level(true, true), NoBit, d.out + FetchSyms())
  {
    var w3, w4, w5, w6, w7 := StartWave(false), ByteAckWave(ADDRESS | 0x01, true), ReceiveWave(), BitWave(true), StopWave();
    var c, released := ByteAckSyms(ADDRESS | 0x01, true), BitSyms(Offered([], 8));
    var d4 := Decoder(Level(false, false), NoBit, d.out + [Start]);
    var d5 := Decoder(Level(false, true), NoBit, d4.out + c);
    var d6 := Decoder(Level(false, true), NoBit, d5.out + released);
    var d7 := Decoder(Level(false, true), NoBit, d6.out + [Bit(true)]);
    var d8 := Decoder(Level(true, true), NoBit, d7.out + [Stop]);
    assert Run(d, w3) == d4 by { StartDecodes(d); }
    assert Run(d4, w4) == d5 by { ByteAckDecodes(d4, ADDRESS | 0x01, true); }
    assert Run(d5, w5) == d6 by { ReceiveDecodes(d5); }
    assert Run(d6, w6) == d7 by { BitDecodes(d6, true); }
    assert Run(d7, w7) == d8 by { StopDecodes(d7); }
    Then(d6, w6, d7, w7, d8);
    Then(d5, w5, d6, w6 + w7, d8);
    Then(d4, w4, d5, w5 + (w6 + w7), d8);
    Then(d, w3, d4, w4 + (w5 + (w6 + w7)), d8);
    var rel := released + [Bit(true)];
    assert d7.out == d4.out + c + rel by {
      Regroup3(d4.out + c, released, [Bit(true)]);
    }
    assert rel == ByteAckSyms(0xFF, true) by {
      ReleasedByte();
    }
    Regroup5(d.out, [Start], c, rel, [Stop]);
  }

  /** What a receiver decodes from ReadReg, on the master's side of the bus. */
  lemma ReadRegDecodes(d: Decoder, reg: bv8)
    requires d.pending == NoBit && (d.prev.scl ==> d.prev.sda)
    ensures Run(d, ReadRegWave(d.prev.scl, reg)) == Decoder(Level(true, true), NoBit, d.out + ReadRegSyms(reg))
  {
    var d1 := Decoder(Level(false, true), NoBit, d.out + SelectSyms(reg));
    var d2 := Decoder(Level(true, true), NoBit, d1.out + FetchSyms());
    assert Run(d, SelectWave(d.prev.scl, reg)) == d1 by { SelectDecodes(d, reg); }
    assert Run(d1, FetchWave()) == d2 by { FetchDecodes(d1); }
    Then(d, SelectWave(d.prev.scl, reg), d1, FetchWave(), d2);
    Regroup3(d.out, SelectSyms(reg), FetchSyms());
  }

  lemma FramesByteAck(b: bv8, ack: bool, rest: seq<Sym>)
    ensures Frames(ByteAckSyms(b, ack) + rest) == [TByte(b, ack)] + Frames(rest)
  {
    assert ByteAckSyms(b, ack) + rest == BitSyms(BitsMsb(b)) + [Bit(ack)] + rest;
    FramesByte(b, ack, rest);
  }

  function WriteRegTokens(reg: bv8, data: bv8): seq<Token>
  {
    [TStart, TByte(ADDRESS, true), TByte(reg, true), TByte(data, true), TStop]
  }

  lemma WriteRegFramesThen(reg: bv8, data: bv8, rest: seq<Sym>)
    ensures Frames(WriteRegSyms(reg, data) + rest) == WriteRegTokens(reg, data) + Frames(rest)
  {
    var a, b, c := ByteAckSyms(ADDRESS, true), ByteAckSyms(reg, true), ByteAckSyms(data, true);
    RegroupFrame([Start], a, b, c, [Stop], rest);
    FramesStart(a + (b + (c + ([Stop] + rest))));
    FramesByteAck(ADDRESS, true, b + (c + ([Stop] + rest)));
    FramesByteAck(reg, true, c + ([Stop] + rest));
    FramesByteAck(data, true, [Stop] + rest);
    FramesStop(rest);
  }

  /**
   * MPU6050_WriteReg on the wire (UM10204 sections 3.1.10 and 3.1.6): START,
   * the address byte 0xD0 with R/W = 0, the register, the data, each followed
   * by an acknowledge clock in which the master releases SDA, then STOP.
   */
  lemma {:induction false} WriteRegOnWire(reg: bv8, data: bv8)
    ensures Frames(Run(IdleDecoder, WriteRegWave(true, reg, data)).out) == WriteRegTokens(reg, data)
  {
    WriteRegDecodes(IdleDecoder, reg, data);
    WriteRegFramesThen(reg, data, []);
    assert WriteRegSyms(reg, data) + [] == WriteRegSyms(reg, data);
    assert IdleDecoder.out + WriteRegSyms(reg, data) == WriteRegSyms(reg, data);
  }

  /**
   * MPU6050_ReadReg on the wire: the write phase [0xD0, reg], a repeated
   * START with no STOP before it, the address with R/W = 1, a byte clocked
   * with SDA released by the master, the master's NACK and STOP.
   */
  lemma {:induction false} ReadRegOnWire(reg: bv8)
    ensures Frames(Run(IdleDecoder, ReadRegWave(true, reg)).out)
         == [TStart, TByte(0xD0, true), TByte(reg, true), TStart, TByte(0xD1, true), TByte(0xFF, true), TStop]
  {
    ReadRegDecodes(IdleDecoder, reg);
    assert IdleDecoder.out + ReadRegSyms(reg) == ReadRegSyms(reg);
    RegroupRead([Start], ByteAckSyms(ADDRESS, true), ByteAckSyms(reg, true),
      ByteAckSyms(ADDRESS | 0x01, true), ByteAckSyms(0xFF, true), [Stop]);
    FramesRead(ADDRESS, reg, ADDRESS | 0x01, 0xFF);
  }

  /** The frames of a register read whose four bytes are all acknowledged. */
  lemma FramesRead(a0: bv8, reg: bv8, a1: bv8, v: bv8)
    ensures Frames([Start] + (ByteAckSyms(a0, true) + (ByteAckSyms(reg, true)
              + ([Start] + (ByteAckSyms(a1, true) + (ByteAckSyms(v, true) + [Stop]))))))
         == [TStart, TByte(a0, true), TByte(reg, true), TStart, TByte(a1, true), TByte(v, true), TStop]
  {
    var tail := [Start] + (ByteAckSyms(a1, true) + (ByteAckSyms(v, true) + [Stop]));
    FramesTwoBytes(a0, reg, tail);
    FramesTwoBytes(a1, v, [Stop]);
    assert Frames([Stop]) == [TStop] by {
      FramesStop([]);
      assert [Stop] + [] == [Stop];
    }
  }

  /** A START and two acknowledged bytes. */
  lemma FramesTwoBytes(x: bv8, y: bv8, rest: seq<Sym>)
    ensures Frames([Start] + (ByteAckSyms(x, true) + (ByteAckSyms(y, true) + rest)))
         == [TStart, TByte(x, true), TByte(y, true)] + Frames(rest)
  {
    FramesStart(ByteAckSyms(x, true) + (ByteAckSyms(y, true) + rest));
    FramesByteAck(x, true, ByteAckSyms(y, true) + rest);
    FramesByteAck(y, true, rest);
  }

  // ---------------------------------------------------------------------
  // Register sequences

  function WritesWave(ws: seq<(bv8, bv8)>): seq<Level>
  {
    if ws == [] then [] else WriteRegWave(true, ws[0].0, ws[0].1) + WritesWave(ws[1..])
  }

  function WritesTokens(ws: seq<(bv8, bv8)>): seq<Token>
  {
    if ws == [] then [] else WriteRegTokens(ws[0].0, ws[0].1) + WritesTokens(ws[1..])
  }

  function WritesSyms(ws: seq<(bv8, bv8)>): seq<Sym>
  {
    if ws == [] then [] else WriteRegSyms(ws[0].0, ws[0].1) + WritesSyms(ws[1..])
  }

  lemma {:induction false} WritesDecode(d: Decoder, ws: seq<(bv8, bv8)>)
    requires d.prev == Level(true, true) && d.pending == NoBit
    ensures Run(d, WritesWave(ws)) == Decoder(Level(true, true), NoBit, d.out + WritesSyms(ws))
    decreases |ws|
  {
    if ws == [] {
      assert d.out + [] == d.out;
    } else {
      RunAppend(d, WriteRegWave(true, ws[0].0, ws[0].1), WritesWave(ws[1..]));
      WriteRegDecodes(d, ws[0].0, ws[0].1);
      WritesDecode(Run(d, WriteRegWave(true, ws[0].0, ws[0].1)), ws[1..]);
      Regroup3(d.out, WriteRegSyms(ws[0].0, ws[0].1), WritesSyms(ws[1..]));
    }
  }

  lemma {:induction false} WritesFrames(ws: seq<(bv8, bv8)>)
    ensures Frames(WritesSyms(ws)) == WritesTokens(ws)
    decreases |ws|
  {
    if ws != [] {
      WriteRegFramesThen(ws[0].0, ws[0].1, WritesSyms(ws[1..]));
      WritesFrames(ws[1..]);
    }
  }

  /** MPU6050_Init on the wire: one complete WriteReg frame per configuration pair, in order. */
  lemma {:induction false} InitOnWire()
    ensures Frames(Run(IdleDecoder, WritesWave(InitWrites)).out) == WritesTokens(InitWrites)
  {
    WritesDecode(IdleDecoder, InitWrites);
    assert IdleDecoder.out + WritesSyms(InitWrites) == WritesSyms(InitWrites);
    WritesFrames(InitWrites);
  }

  /** The byte the k-th of several consecutive ReadReg calls returns, given the slave's levels. */
  function ReadByte(q: seq<bool>, k: nat): bv8
  {
    ByteAt(q, 11 * k + 3)
  }

  /** The byte ReceiveByte assembles when the slave's levels are q and i of them were read before. */
  function ByteAt(q: seq<bool>, i: nat): bv8
  {
    Pack(Offered(Drop(q, i), 8), 8)
  }

  // ---------------------------------------------------------------------
  // The C functions

  lemma RegroupWrite<T>(t0: seq<T>, w0: seq<T>, a: seq<T>, b: seq<T>, c: seq<T>, p: seq<T>)
    ensures t0 + w0 + a + b + c + p == t0 + (w0 + (a + (b + (c + p))))
  {
  }

  /** SendByte followed by ReceiveAck, as WriteReg and ReadReg do for every byte they send; the acknowledge is ignored. */
  method SendByteAck(bus: Bus, b: bv8)
    requires !bus.scl
    modifies bus`scl, bus`sda, bus`trace, bus`slave, bus`samples
    ensures !bus.scl && bus.sda
    ensures bus.trace == old(bus.trace) + ByteAckWave(b, true)
    ensures bus.slave == Drop(old(bus.slave), 1)
    ensures bus.samples == old(bus.samples) + HighSamples(Offered(old(bus.slave), 1))
  {
    ghost var t := bus.trace;
    bus.SendByte(b);
    var _ := bus.ReceiveAck();
    assert t + ByteWave(BitsMsb(b)) + BitWave(true) == t + ByteAckWave(b, true);
  }

  /** MPU6050_WriteReg. The three acknowledge bits are read and ignored. */
  method WriteReg(bus: Bus, reg: bv8, data: bv8)
    modifies bus`scl, bus`sda, bus`trace, bus`slave, bus`samples
    ensures bus.scl && bus.sda
    ensures bus.trace == old(bus.trace) + WriteRegWave(old(bus.scl), reg, data)
    ensures bus.slave == Drop(old(bus.slave), 3)
    ensures bus.samples == old(bus.samples) + HighSamples(Offered(old(bus.slave), 3))
  {
    ghost var q, t0, s0, c0 := bus.slave, bus.trace, bus.samples, bus.scl;
    bus.Start();
    SendByteAck(bus, ADDRESS);
    SendByteAck(bus, reg);
    SendByteAck(bus, data);
    bus.Stop();
    assert bus.trace == t0 + WriteRegWave(c0, reg, data) by {
      RegroupWrite(t0, StartWave(c0), ByteAckWave(ADDRESS, true), ByteAckWave(reg, true), ByteAckWave(data, true), StopWave());
    }
    assert bus.samples == s0 + HighSamples(Offered(q, 3)) by {
      SamplesCompose(q, 1, 1);
      DropDrop(q, 1, 1);
      SamplesCompose(q, 2, 1);
    }
    DropDrop(q, 2, 1);
  }

  /** The write phase of MPU6050_ReadReg: START, the write address and the register address, with no STOP. */
  method SelectRegister(bus: Bus, reg: bv8)
    modifies bus`scl, bus`sda, bus`trace, bus`slave, bus`samples
    ensures !bus.scl && bus.sda
    ensures bus.trace == old(bus.trace) + SelectWave(old(bus.scl), reg)
    ensures bus.slave == Drop(old(bus.slave), 2)
    ensures bus.samples == old(bus.samples) + HighSamples(Offered(old(bus.slave), 2))
  {
    ghost var q, t0, s0, c0 := bus.slave, bus.trace, bus.samples, bus.scl;
    bus.Start();
    SendByteAck(bus, ADDRESS);
    SendByteAck(bus, reg);
    assert bus.trace == t0 + SelectWave(c0, reg) by {
      Regroup3(t0 + StartWave(c0), ByteAckWave(ADDRESS, true), ByteAckWave(reg, true));
      Regroup3(t0, StartWave(c0), ByteAckWave(ADDRESS, true) + ByteAckWave(reg, true));
    }
    SamplesCompose(q, 1, 1);
    DropDrop(q, 1, 1);
  }

  /** The read phase of MPU6050_ReadReg: repeated START, the read address, one byte in, NACK, STOP. */
  method FetchRegister(bus: Bus) returns (data: bv8)
    requires !bus.scl
    modifies bus`scl, bus`sda, bus`trace, bus`slave, bus`samples
    ensures bus.scl && bus.sda
    ensures data == ByteAt(old(bus.slave), 1)
    ensures bus.trace == old(bus.trace) + FetchWave()
    ensures bus.slave == Drop(old(bus.slave), 9)
    ensures bus.samples == old(bus.samples) + HighSamples(Offered(old(bus.slave), 9))
  {
    ghost var q, t0, s0 := bus.slave, bus.trace, bus.samples;
    bus.Start();
    SendByteAck(bus, ADDRESS | 0x01);
    data := bus.ReceiveByte();
    bus.SendAck(1);
    bus.Stop();
    assert bus.trace == t0 + FetchWave() by {
      Regroup5(t0, StartWave(false), ByteAckWave(ADDRESS | 0x01, true), ReceiveWave(), BitWave(true) + StopWave());
    }
    SamplesCompose(q, 1, 8);
    DropDrop(q, 1, 8);
  }

  /** MPU6050_ReadReg: returns the byte the slave drives after the read address. */
  method ReadReg(bus: Bus, reg: bv8) returns (data: bv8)
    modifies bus`scl, bus`sda, bus`trace, bus`slave, bus`samples
    ensures bus.scl && bus.sda
    ensures data == ReadByte(old(bus.slave), 0)
    ensures bus.trace == old(bus.trace) + ReadRegWave(old(bus.scl), reg)
    ensures bus.slave == Drop(old(bus.slave), 11)
    ensures bus.samples == old(bus.samples) + HighSamples(Offered(old(bus.slave), 11))
  {
    ghost var q, t0, s0, c0 := bus.slave, bus.trace, bus.samples, bus.scl;
    SelectRegister(bus, reg);
    data := FetchRegister(bus);
    DropDrop(q, 2, 1);
    DropDrop(q, 2, 9);
    Regroup3(t0, SelectWave(c0, reg), FetchWave());
    Regroup3(s0, HighSamples(Offered(q, 2)), HighSamples(Offered(Drop(q, 2), 9)));
    SamplesCompose(q, 2, 9);
  }

  /** MPU6050_Init: release both lines, then the six configuration writes of InitWrites. */
  method Init(bus: Bus)
    modifies bus`scl, bus`sda, bus`trace, bus`slave, bus`samples
    ensures bus.scl && bus.sda
    ensures bus.trace == old(bus.trace) + [Level(true, true)]
      + WriteRegWave(true, PWR_MGMT_1, 0x01) + WriteRegWave(true, PWR_MGMT_2, 0x00)
      + WriteRegWave(true, SMPLRT_DIV, 0x09) + WriteRegWave(true, CONFIG, 0x06)
      + WriteRegWave(true, GYRO_CONFIG, 0x18) + WriteRegWave(true, ACCEL_CONFIG, 0x18)
    ensures bus.slave == Drop(old(bus.slave), 18)
  {
    ghost var q := bus.slave;
    bus.Init();
    WriteReg(bus, PWR_MGMT_1, 0x01);
    WriteReg(bus, PWR_MGMT_2, 0x00);
    WriteReg(bus, SMPLRT_DIV, 0x09);
    WriteReg(bus, CONFIG, 0x06);
    WriteReg(bus, GYRO_CONFIG, 0x18);
    WriteReg(bus, ACCEL_CONFIG, 0x18);
    DropDrop(q, 3, 3);
    DropDrop(q, 6, 3);
    DropDrop(q, 9, 3);
    DropDrop(q, 12, 3);
    DropDrop(q, 15, 3);
  }

  /** The trace of Init after its SDA/SCL release is the write sequence InitWrites. */
  lemma InitWavesUnfold()
    ensures WritesWave(InitWrites)
         == WriteRegWave(true, PWR_MGMT_1, 0x01) + WriteRegWave(true, PWR_MGMT_2, 0x00)
          + WriteRegWave(true, SMPLRT_DIV, 0x09) + WriteRegWave(true, CONFIG, 0x06)
          + WriteRegWave(true, GYRO_CONFIG, 0x18) + WriteRegWave(true, ACCEL_CONFIG, 0x18)
  {
    var ws := InitWrites;
    assert ws[0..] == ws;
    WritesWaveAt(ws, 0);
    WritesWaveAt(ws, 1);
    WritesWaveAt(ws, 2);
    WritesWaveAt(ws, 3);
    WritesWaveAt(ws, 4);
    WritesWaveAt(ws, 5);
    assert WritesWave(ws[6..]) == [];
    Chain6(WriteRegWave(true, PWR_MGMT_1, 0x01), WriteRegWave(true, PWR_MGMT_2, 0x00),
      WriteRegWave(true, SMPLRT_DIV, 0x09), WriteRegWave(true, CONFIG, 0x06),
      WriteRegWave(true, GYRO_CONFIG, 0x18), WriteRegWave(true, ACCEL_CONFIG, 0x18));
  }

  lemma WritesWaveAt(ws: seq<(bv8, bv8)>, k: nat)
    requires k < |ws|
    ensures WritesWave(ws[k..]) == WriteRegWave(true, ws[k].0, ws[k].1) + WritesWave(ws[k + 1..])
  {
    assert ws[k..][1..] == ws[k + 1..];
  }

  lemma Chain6<T>(a: seq<T>, b: seq<T>, c: seq<T>, d: seq<T>, e: seq<T>, f: seq<T>)
    ensures a + (b + (c + (d + (e + (f + []))))) == a + b + c + d + e + f
  {
    assert f + [] == f;
  }

  /** MPU6050_GetID: the WHO_AM_I register. */
  method GetId(bus: Bus) returns (id: bv8)
    modifies bus`scl, bus`sda, bus`trace, bus`slave, bus`samples
    ensures id == ReadByte(old(bus.slave), 0)
    ensures bus.trace == old(bus.trace) + ReadRegWave(old(bus.scl), WHO_AM_I)
    ensures bus.slave == Drop(old(bus.slave), 11)
  {
    id := ReadReg(bus, WHO_AM_I);
  }

  /** A device that acknowledges and then drives its documented identity 0x68 is read as 0x68. */
  lemma {:induction false} GetIdOfDevice(q: seq<bool>)
    requires |q| >= 11 && q[3..11] == BitsMsb(0x68)
    ensures ReadByte(q, 0) == 0x68
  {
    assert Drop(q, 3)[..8] == q[3..11];
    ReceiveDriven(Drop(q, 3), 0x68);
  }

  /** Two register reads of one axis, high byte first, combined as GetData does. */
  function AxisWave(regH: bv8, regL: bv8): seq<Level>
  {
    ReadRegWave(true, regH) + ReadRegWave(true, regL)
  }

  /**
   * The value of one axis: the bytes of the two ReadReg calls that begin
   * after the slave has offered a levels of q, high byte first.
   */
  function AxisSample(q: seq<bool>, a: nat): int
  {
    Combine(ByteAt(q, a + 3), ByteAt(q, a + 14))
  }

  /** A device that drives the bytes h and l in the two data phases of an axis is read as Combine(h, l). */
  lemma {:induction false} AxisSampleOfDevice(q: seq<bool>, a: nat, h: bv8, l: bv8)
    requires |q| >= a + 22 && q[a + 3..a + 11] == BitsMsb(h) && q[a + 14..a + 22] == BitsMsb(l)
    ensures AxisSample(q, a) == Combine(h, l)
  {
    assert Drop(q, a + 3)[..8] == q[a + 3..a + 11];
    ReceiveDriven(Drop(q, a + 3), h);
    assert Drop(q, a + 14)[..8] == q[a + 14..a + 22];
    ReceiveDriven(Drop(q, a + 14), l);
  }

  /**
   * The three statements of GetData for one axis: read the high register,
   * read the low register, combine. Called on an idle bus when the slave's
   * levels are what remains of q after the first a of them.
   */
  method ReadAxis(bus: Bus, regH: bv8, regL: bv8, ghost q: seq<bool>, ghost a: nat, ghost next: nat) returns (v: int)
    requires bus.scl && bus.slave == Drop(q, a) && next == a + 22
    modifies bus`scl, bus`sda, bus`trace, bus`slave, bus`samples
    ensures bus.scl && bus.sda
    ensures v == AxisSample(q, a)
    ensures bus.trace == old(bus.trace) + AxisWave(regH, regL)
    ensures bus.slave == Drop(q, next)
  {
    ghost var t0 := bus.trace;
    var h := ReadReg(bus, regH);
    assert h == ByteAt(q, a + 3) by { DropDrop(q, a, 3); }
    assert bus.slave == Drop(q, a + 11) by { DropDrop(q, a, 11); }
    var l := ReadReg(bus, regL);
    assert l == ByteAt(q, a + 14) by { DropDrop(q, a + 11, 3); }
    assert bus.slave == Drop(q, a + 22) by { DropDrop(q, a + 11, 11); }
    assert bus.trace == t0 + AxisWave(regH, regL) by {
      Regroup3(t0, ReadRegWave(true, regH), ReadRegWave(true, regL));
    }
    v := Combine(h, l);
  }

  /**
   * MPU6050_GetData on an idle bus (both lines high, as Init and every
   * register access leave it): twelve single-register reads, each axis
   * combined from its high and low byte.
   */
  method GetData(bus: Bus) returns (accX: int, accY: int, accZ: int, gyroX: int, gyroY: int, gyroZ: int)
    requires bus.scl
    modifies bus`scl, bus`sda, bus`trace, bus`slave, bus`samples
    ensures bus.scl && bus.sda
    ensures bus.trace == old(bus.trace)
      + AxisWave(ACCEL_XOUT_H, ACCEL_XOUT_L) + AxisWave(ACCEL_YOUT_H, ACCEL_YOUT_L)
      + AxisWave(ACCEL_ZOUT_H, ACCEL_ZOUT_L) + AxisWave(GYRO_XOUT_H, GYRO_XOUT_L)
      + AxisWave(GYRO_YOUT_H, GYRO_YOUT_L) + AxisWave(GYRO_ZOUT_H, GYRO_ZOUT_L)
    ensures bus.slave == Drop(old(bus.slave), 132)
    ensures accX == AxisSample(old(bus.slave), 0)
    ensures accY == AxisSample(old(bus.slave), 22)
    ensures accZ == AxisSample(old(bus.slave), 44)
    ensures gyroX == AxisSample(old(bus.slave), 66)
    ensures gyroY == AxisSample(old(bus.slave), 88)
    ensures gyroZ == AxisSample(old(bus.slave), 110)
  {
    ghost var q := bus.slave;
    assert q == Drop(q, 0);
    accX := ReadAxis(bus, ACCEL_XOUT_H, ACCEL_XOUT_L, q, 0, 22);
    accY := ReadAxis(bus, ACCEL_YOUT_H, ACCEL_YOUT_L, q, 22, 44);
    accZ := ReadAxis(bus, ACCEL_ZOUT_H, ACCEL_ZOUT_L, q, 44, 66);
    gyroX := ReadAxis(bus, GYRO_XOUT_H, GYRO_XOUT_L, q, 66, 88);
    gyroY := ReadAxis(bus, GYRO_YOUT_H, GYRO_YOUT_L, q, 88, 110);
    gyroZ := ReadAxis(bus, GYRO_ZOUT_H, GYRO_ZOUT_L, q, 110, 132);
  }
}
