// MPU6050 register access through the STM32 I2C2 peripheral (lesson 10-2
// MPU6050.c). The peripheral is a log of the driver's requests plus two
// queues the environment fills: the answers I2C_CheckEvent gives, and the
// bytes the data register holds when I2C_ReceiveData reads it.

module Mpu6050Hw {
  import opened CInt
  import opened MyI2C
  import opened Mpu6050Regs
  import Mpu6050Soft

  /** The master events the driver waits for: EV5, EV6 (two directions), EV8, EV8_2 and EV7. */
  datatype Event = ModeSelect | TransmitterSelected | ReceiverSelected
    | ByteTransmitting | ByteTransmitted | ByteReceived

  /**
   * One step of the driver, in program order: a request to the peripheral, or
   * one complete MPU6050_WaitEvent (its polls show in the answers consumed).
   */
  datatype Op = GenStart | GenStop | Address(addr: bv8, receiver: bool)
    | Data(b: bv8) | AckConfig(enable: bool) | Read | Wait(e: Event)

  /** The initial value of the polling counter in MPU6050_WaitEvent. */
  const TIMEOUT: nat := 10000

  // ---------------------------------------------------------------------
  // Polling

  /** The number of failed polls before the first success (none left means success). */
  function Failures(q: seq<bool>): (n: nat)
    ensures n <= |q|
  {
    if q == [] || q[0] then 0 else 1 + Failures(q[1..])
  }

  /** The poll at index i fails exactly while i is below Failures(q). */
  lemma {:induction false} FailuresHead(q: seq<bool>, i: nat)
    requires i <= Failures(q)
    ensures Head(Drop(q, i)) <==> i == Failures(q)
  {
    if i > 0 {
      FailuresHead(q[1..], i - 1);
      assert Drop(q[1..], i - 1) == Drop(q, i);
    }
  }

  /** How many times MPU6050_WaitEvent calls I2C_CheckEvent. */
  function Polls(q: seq<bool>): nat
  {
    if Failures(q) < TIMEOUT then Failures(q) + 1 else TIMEOUT
  }

  /** WaitEvent stops at the first success or after TIMEOUT failures, whichever comes first. */
  lemma PollsBound(q: seq<bool>)
    ensures 1 <= Polls(q) <= TIMEOUT
    ensures Polls(q) < TIMEOUT ==> Head(Drop(q, Polls(q) - 1))
    ensures Polls(q) == TIMEOUT ==> forall i :: 0 <= i < TIMEOUT - 1 ==> !Head(Drop(q, i))
  {
    if Polls(q) < TIMEOUT {
      FailuresHead(q, Failures(q));
    } else {
      forall i | 0 <= i < TIMEOUT - 1
        ensures !Head(Drop(q, i))
      {
        FailuresHead(q, i);
      }
    }
  }

  /** The answers left after n consecutive waits. */
  function AfterWaits(q: seq<bool>, n: nat): seq<bool>
    decreases n
  {
    if n == 0 then q else AfterWaits(Drop(q, Polls(q)), n - 1)
  }

  lemma {:induction false} AfterWaitsAdd(q: seq<bool>, m: nat, n: nat)
    ensures AfterWaits(AfterWaits(q, m), n) == AfterWaits(q, m + n)
    decreases m
  {
    if m > 0 {
      AfterWaitsAdd(Drop(q, Polls(q)), m - 1, n);
    }
  }

  /** The byte the data register holds at the i-th read; 0xFF once the queue is exhausted. */
  function ByteIn(q: seq<bv8>, i: nat): bv8
  {
    if i < |q| then q[i] else 0xFF
  }

  // ---------------------------------------------------------------------
  // The bus the requests produce

  /** The byte I2C_Send7bitAddress puts on the bus: bit 0 set for the receiver direction, clear otherwise. */
  function AddressByte(addr: bv8, receiver: bool): bv8
  {
    if receiver then addr | 0x01 else addr & 0xFE
  }

  /**
   * What the peripheral is doing: whether ACK is enabled, whether it is in receiver
   * mode, and whether a STOP was requested while a byte is still being received
   * (the peripheral then sends STOP after that byte).
   */
  datatype Mode = Mode(ack: bool, receiving: bool, stopPending: bool)

  const Ready: Mode := Mode(true, false, false)

  /**
   * The bus conditions and bytes, from the master's side, that one request puts on
   * the wire. The master releases SDA during a slave's acknowledge clock, and in a
   * received byte's data clocks; it drives ACK in the ninth clock only if ACK is enabled.
   */
  function Emit(op: Op, m: Mode): seq<Token>
  {
    match op
    case GenStart => [TStart]
    case GenStop => if m.receiving then [] else [TStop]
    case Address(a, r) => [TByte(AddressByte(a, r), true)]
    case Data(b) => [TByte(b, true)]
    case Read => [TByte(0xFF, !m.ack)] + (if m.stopPending then [TStop] else [])
    case AckConfig(_) => []
    case Wait(_) => []
  }

  function Next(op: Op, m: Mode): Mode
  {
    match op
    case GenStart => m.(receiving := false, stopPending := false)
    case GenStop => if m.receiving then m.(stopPending := true) else m
    case Address(_, r) => m.(receiving := r)
    case Data(_) => m
    case Read => if m.stopPending then m.(receiving := false, stopPending := false) else m
    case AckConfig(e) => m.(ack := e)
    case Wait(_) => m
  }

  // ---------------------------------------------------------------------
  // The request sequences of the C functions

  function WriteRegOps(reg: bv8, data: bv8): seq<Op>
  {
    [GenStart, Wait(ModeSelect)] + [Address(ADDRESS, false), Wait(TransmitterSelected)]
      + [Data(reg), Wait(ByteTransmitting)] + [Data(data), Wait(ByteTransmitted)] + [GenStop]
  }

  /** The write phase of ReadReg ends with a wait for BYTE_TRANSMITTED and no STOP. */
  function SelectOps(reg: bv8): seq<Op>
  {
    [GenStart, Wait(ModeSelect)] + [Address(ADDRESS, false), Wait(TransmitterSelected)]
      + [Data(reg), Wait(ByteTransmitted)]
  }

  /** The read phase: ACK is disabled and STOP requested before the wait for EV7. */
  function FetchOps(): seq<Op>
  {
    [GenStart, Wait(ModeSelect)] + [Address(ADDRESS, true), Wait(ReceiverSelected)]
      + [AckConfig(false)] + [GenStop] + [Wait(ByteReceived)] + [Read] + [AckConfig(true)]
  }

  function ReadRegOps(reg: bv8): seq<Op>
  {
    SelectOps(reg) + FetchOps()
  }

  function SelectTokens(reg: bv8): seq<Token>
  {
    [TStart, TByte(ADDRESS, true), TByte(reg, true)]
  }

  /** A repeated START, 0xD1, one byte answered with NACK, and STOP. */
  function FetchTokens(): seq<Token>
  {
    [TStart, TByte(ADDRESS | 0x01, true), TByte(0xFF, true), TStop]
  }

  function ReadRegTokens(reg: bv8): seq<Token>
  {
    SelectTokens(reg) + FetchTokens()
  }

  /** Register reads on the two drivers put the same frames on the wire. */
  lemma ReadRegAsBitBanged(reg: bv8)
    ensures ReadRegTokens(reg) == Frames(Run(IdleDecoder, Mpu6050Soft.ReadRegWave(true, reg)).out)
  {
    Mpu6050Soft.ReadRegOnWire(reg);
  }

  lemma Regroup5<T>(w: seq<T>, a: seq<T>, b: seq<T>, c: seq<T>, d: seq<T>, e: seq<T>)
    ensures w + a + b + c + d + e == w + (a + b + c + d + e)
  {
  }

  lemma Regroup2<T>(w: seq<T>, a: seq<T>, b: seq<T>)
    ensures w + a + b == w + (a + b)
  {
  }

  lemma Regroup3<T>(w: seq<T>, a: seq<T>, b: seq<T>, c: seq<T>)
    ensures w + a + b + c == w + (a + b + c)
  {
  }

  lemma Regroup7<T>(w: seq<T>, a: seq<T>, b: seq<T>, c: seq<T>, d: seq<T>, e: seq<T>, f: seq<T>, g: seq<T>)
    ensures w + a + b + c + d + e + f + g == w + (a + b + c + d + e + f + g)
  {
  }

  lemma Singles3<T>(w: seq<T>, a: T, b: T, c: T)
    ensures w + [a] + [b] + [c] == w + [a, b, c]
  {
  }

  lemma Singles4<T>(w: seq<T>, a: T, b: T, c: T, d: T)
    ensures w + [a] + [b] + ([c] + [d]) == w + [a, b, c, d]
  {
  }

  lemma Singles5<T>(w: seq<T>, a: T, b: T, c: T, d: T, e: T)
    ensures w + [a] + [b] + [c] + [d] + [e] == w + [a, b, c, d, e]
  {
  }

  // ---------------------------------------------------------------------
  // The peripheral

  class I2C {
    /** The driver's requests and waits so far. */
    var ops: seq<Op>
    /** What the requests have put on the bus, from the master's side. */
    var wire: seq<Token>
    /** The ACK bit and the transfer state of the peripheral. */
    var mode: Mode
    /** The answers I2C_CheckEvent will give, in order; none left means SUCCESS. */
    var answers: seq<bool>
    /** The bytes I2C_ReceiveData will read, in order. */
    var incoming: seq<bv8>

    /** I2C_Init with I2C_Ack_Enable, then I2C_Cmd: a ready peripheral. */
    constructor (answers0: seq<bool>, incoming0: seq<bv8>)
      ensures ops == [] && wire == [] && mode == Ready
      ensures answers == answers0 && incoming == incoming0
    {
      ops, wire, mode := [], [], Ready;
      answers, incoming := answers0, incoming0;
    }

    /** A request the peripheral carries out on the bus. */
    method Apply(op: Op)
      requires !op.Wait?
      modifies this`ops, this`wire, this`mode
      ensures ops == old(ops) + [op]
      ensures wire == old(wire) + Emit(op, old(mode)) && mode == Next(op, old(mode))
    {
      ops := ops + [op];
      wire := wire + Emit(op, mode);
      mode := Next(op, mode);
    }

    /** I2C_CheckEvent: one poll of the status registers. */
    method CheckEvent(e: Event) returns (ok: bool)
      modifies this`answers
      ensures ok == Head(old(answers)) && answers == Drop(old(answers), 1)
    {
      ok := Head(answers);
      answers := Drop(answers, 1);
    }

    /** I2C_ReceiveData: the data register, read once the byte has arrived. */
    method ReceiveData() returns (b: bv8)
      modifies this`ops, this`wire, this`mode, this`incoming
      ensures b == ByteIn(old(incoming), 0) && incoming == Drop(old(incoming), 1)
      ensures ops == old(ops) + [Read]
      ensures wire == old(wire) + Emit(Read, old(mode)) && mode == Next(Read, old(mode))
    {
      b := ByteIn(incoming, 0);
      incoming := Drop(incoming, 1);
      Apply(Read);
    }
  }

  // ---------------------------------------------------------------------
  // The C functions

  /**
   * MPU6050_WaitEvent: poll until the event is reported or the counter that
   * starts at 10000 reaches zero; either way it returns without an error.
   */
  method WaitEvent(i2c: I2C, e: Event)
    modifies i2c`answers, i2c`ops
    ensures i2c.answers == Drop(old(i2c.answers), Polls(old(i2c.answers)))
    ensures i2c.ops == old(i2c.ops) + [Wait(e)]
  {
    ghost var q := i2c.answers;
    var timeout: nat := TIMEOUT;
    ghost var n: nat := 1;
    var ok := i2c.CheckEvent(e);
    FailuresHead(q, 0);
    while !ok
      invariant 1 <= n <= TIMEOUT && timeout + n == TIMEOUT + 1
      invariant n <= Failures(q) + 1 && (ok <==> n == Failures(q) + 1)
      invariant i2c.answers == Drop(q, n) && i2c.ops == old(i2c.ops)
      decreases timeout
    {
      timeout := timeout - 1;
      if timeout == 0 {
        break;
      }
      ok := i2c.CheckEvent(e);
      FailuresHead(q, n);
      DropDrop(q, n, 1);
      n := n + 1;
    }
    i2c.ops := i2c.ops + [Wait(e)];
  }

  /** A request followed by the wait for its event, as every step of the C functions is written. */
  method Step(i2c: I2C, op: Op, e: Event)
    requires !op.Wait?
    modifies i2c`ops, i2c`wire, i2c`mode, i2c`answers
    ensures i2c.ops == old(i2c.ops) + [op, Wait(e)]
    ensures i2c.wire == old(i2c.wire) + Emit(op, old(i2c.mode)) && i2c.mode == Next(op, old(i2c.mode))
    ensures i2c.answers == AfterWaits(old(i2c.answers), 1)
  {
    i2c.Apply(op);
    WaitEvent(i2c, e);
  }

  /** MPU6050_WriteReg (hardware): START, address, register, data, each acknowledged by an event, then STOP. */
  method WriteReg(i2c: I2C, reg: bv8, data: bv8)
    requires i2c.mode == Ready
    modifies i2c`ops, i2c`wire, i2c`mode, i2c`answers
    ensures i2c.ops == old(i2c.ops) + WriteRegOps(reg, data)
    ensures i2c.wire == old(i2c.wire) + Mpu6050Soft.WriteRegTokens(reg, data)
    ensures i2c.mode == Ready
    ensures i2c.answers == AfterWaits(old(i2c.answers), 4)
  {
    ghost var q, o, w := i2c.answers, i2c.ops, i2c.wire;
    Step(i2c, GenStart, ModeSelect);
    Step(i2c, Address(ADDRESS, false), TransmitterSelected);
    Step(i2c, Data(reg), ByteTransmitting);
    Step(i2c, Data(data), ByteTransmitted);
    i2c.Apply(GenStop);
    assert i2c.wire == w + Mpu6050Soft.WriteRegTokens(reg, data) by {
      assert AddressByte(ADDRESS, false) == ADDRESS;
      Singles5(w, TStart, TByte(ADDRESS, true), TByte(reg, true), TByte(data, true), TStop);
    }
    assert i2c.ops == o + WriteRegOps(reg, data) by {
      Regroup5(o, [GenStart, Wait(ModeSelect)], [Address(ADDRESS, false), Wait(TransmitterSelected)],
        [Data(reg), Wait(ByteTransmitting)], [Data(data), Wait(ByteTransmitted)], [GenStop]);
    }
    AfterWaitsAdd(q, 1, 1);
    AfterWaitsAdd(q, 2, 1);
    AfterWaitsAdd(q, 3, 1);
  }

  /** The write phase of MPU6050_ReadReg. */
  method SelectRegister(i2c: I2C, reg: bv8)
    requires i2c.mode == Ready
    modifies i2c`ops, i2c`wire, i2c`mode, i2c`answers
    ensures i2c.ops == old(i2c.ops) + SelectOps(reg)
    ensures i2c.wire == old(i2c.wire) + SelectTokens(reg)
    ensures i2c.mode == Ready
    ensures i2c.answers == AfterWaits(old(i2c.answers), 3)
  {
    ghost var q, o, w := i2c.answers, i2c.ops, i2c.wire;
    Step(i2c, GenStart, ModeSelect);
    Step(i2c, Address(ADDRESS, false), TransmitterSelected);
    Step(i2c, Data(reg), ByteTransmitted);
    assert i2c.wire == w + SelectTokens(reg) by {
      assert AddressByte(ADDRESS, false) == ADDRESS;
      Singles3(w, TStart, TByte(ADDRESS, true), TByte(reg, true));
    }
    assert i2c.ops == o + SelectOps(reg) by {
      Regroup3(o, [GenStart, Wait(ModeSelect)], [Address(ADDRESS, false), Wait(TransmitterSelected)],
        [Data(reg), Wait(ByteTransmitted)]);
    }
    AfterWaitsAdd(q, 1, 1);
    AfterWaitsAdd(q, 2, 1);
  }

  /** The read phase of MPU6050_ReadReg: the received byte is the next one the data register holds. */
  method FetchRegister(i2c: I2C) returns (data: bv8)
    requires i2c.mode == Ready
    modifies i2c`ops, i2c`wire, i2c`mode, i2c`answers, i2c`incoming
    ensures data == ByteIn(old(i2c.incoming), 0) && i2c.incoming == Drop(old(i2c.incoming), 1)
    ensures i2c.ops == old(i2c.ops) + FetchOps()
    ensures i2c.wire == old(i2c.wire) + FetchTokens()
    ensures i2c.mode == Ready
    ensures i2c.answers == AfterWaits(old(i2c.answers), 3)
  {
    ghost var q, o, w := i2c.answers, i2c.ops, i2c.wire;
    Step(i2c, GenStart, ModeSelect);
    Step(i2c, Address(ADDRESS, true), ReceiverSelected);
    i2c.Apply(AckConfig(false));
    i2c.Apply(GenStop);
    WaitEvent(i2c, ByteReceived);
    data := i2c.ReceiveData();
    i2c.Apply(AckConfig(true));
    assert i2c.wire == w + FetchTokens() by {
      Singles4(w, TStart, TByte(ADDRESS | 0x01, true), TByte(0xFF, true), TStop);
    }
    assert i2c.ops == o + FetchOps() by {
      Regroup7(o, [GenStart, Wait(ModeSelect)], [Address(ADDRESS, true), Wait(ReceiverSelected)],
        [AckConfig(false)], [GenStop], [Wait(ByteReceived)], [Read], [AckConfig(true)]);
    }
    AfterWaitsAdd(q, 1, 1);
    AfterWaitsAdd(q, 2, 1);
  }

  /** MPU6050_ReadReg (hardware): returns the data register after EV7, with ACK enabled again. */
  method ReadReg(i2c: I2C, reg: bv8) returns (data: bv8)
    requires i2c.mode == Ready
    modifies i2c`ops, i2c`wire, i2c`mode, i2c`answers, i2c`incoming
    ensures data == ByteIn(old(i2c.incoming), 0) && i2c.incoming == Drop(old(i2c.incoming), 1)
    ensures i2c.ops == old(i2c.ops) + ReadRegOps(reg)
    ensures i2c.wire == old(i2c.wire) + ReadRegTokens(reg)
    ensures i2c.mode == Ready && i2c.mode.ack
    ensures i2c.answers == AfterWaits(old(i2c.answers), 6)
  {
    ghost var q, o, w := i2c.answers, i2c.ops, i2c.wire;
    SelectRegister(i2c, reg);
    data := FetchRegister(i2c);
    Regroup2(o, SelectOps(reg), FetchOps());
    Regroup2(w, SelectTokens(reg), FetchTokens());
    AfterWaitsAdd(q, 3, 3);
  }

  /** MPU6050_Init after the peripheral set-up: the six configuration writes of InitWrites. */
  method Init(i2c: I2C)
    requires i2c.mode == Ready
    modifies i2c`ops, i2c`wire, i2c`mode, i2c`answers
    ensures i2c.ops == old(i2c.ops)
      + WriteRegOps(PWR_MGMT_1, 0x01) + WriteRegOps(PWR_MGMT_2, 0x00) + WriteRegOps(SMPLRT_DIV, 0x09)
      + WriteRegOps(CONFIG, 0x06) + WriteRegOps(GYRO_CONFIG, 0x18) + WriteRegOps(ACCEL_CONFIG, 0x18)
    ensures i2c.wire == old(i2c.wire)
      + Mpu6050Soft.WriteRegTokens(PWR_MGMT_1, 0x01) + Mpu6050Soft.WriteRegTokens(PWR_MGMT_2, 0x00)
      + Mpu6050Soft.WriteRegTokens(SMPLRT_DIV, 0x09) + Mpu6050Soft.WriteRegTokens(CONFIG, 0x06)
      + Mpu6050Soft.WriteRegTokens(GYRO_CONFIG, 0x18) + Mpu6050Soft.WriteRegTokens(ACCEL_CONFIG, 0x18)
    ensures i2c.mode == Ready
    ensures i2c.answers == AfterWaits(old(i2c.answers), 24)
  {
    ghost var q := i2c.answers;
    WriteReg(i2c, PWR_MGMT_1, 0x01);
    WriteReg(i2c, PWR_MGMT_2, 0x00);
    WriteReg(i2c, SMPLRT_DIV, 0x09);
    WriteReg(i2c, CONFIG, 0x06);
    WriteReg(i2c, GYRO_CONFIG, 0x18);
    WriteReg(i2c, ACCEL_CONFIG, 0x18);
    AfterWaitsAdd(q, 4, 4);
    AfterWaitsAdd(q, 8, 4);
    AfterWaitsAdd(q, 12, 4);
    AfterWaitsAdd(q, 16, 4);
    AfterWaitsAdd(q, 20, 4);
  }

  function InitTokens(): seq<Token>
  {
    Mpu6050Soft.WriteRegTokens(PWR_MGMT_1, 0x01) + Mpu6050Soft.WriteRegTokens(PWR_MGMT_2, 0x00)
      + Mpu6050Soft.WriteRegTokens(SMPLRT_DIV, 0x09) + Mpu6050Soft.WriteRegTokens(CONFIG, 0x06)
      + Mpu6050Soft.WriteRegTokens(GYRO_CONFIG, 0x18) + Mpu6050Soft.WriteRegTokens(ACCEL_CONFIG, 0x18)
  }

  /** Both drivers' Init put the frames of the register writes InitWrites on the wire, in order. */
  lemma InitAsBitBanged()
    ensures InitTokens() == Mpu6050Soft.WritesTokens(InitWrites)
    ensures InitTokens() == Frames(Run(IdleDecoder, Mpu6050Soft.WritesWave(InitWrites)).out)
  {
    var ws := InitWrites;
    assert Mpu6050Soft.WritesTokens(ws[6..]) == [];
    assert Mpu6050Soft.WritesTokens(ws[5..]) == Mpu6050Soft.WriteRegTokens(ACCEL_CONFIG, 0x18);
    assert Mpu6050Soft.WritesTokens(ws[4..]) == Mpu6050Soft.WriteRegTokens(GYRO_CONFIG, 0x18) + Mpu6050Soft.WritesTokens(ws[5..]);
    assert Mpu6050Soft.WritesTokens(ws[3..]) == Mpu6050Soft.WriteRegTokens(CONFIG, 0x06) + Mpu6050Soft.WritesTokens(ws[4..]);
    assert Mpu6050Soft.WritesTokens(ws[2..]) == Mpu6050Soft.WriteRegTokens(SMPLRT_DIV, 0x09) + Mpu6050Soft.WritesTokens(ws[3..]);
    assert Mpu6050Soft.WritesTokens(ws[1..]) == Mpu6050Soft.WriteRegTokens(PWR_MGMT_2, 0x00) + Mpu6050Soft.WritesTokens(ws[2..]);
    Mpu6050Soft.InitOnWire();
  }

  /** MPU6050_GetID (hardware): ReadReg of WHO_AM_I. */
  method GetId(i2c: I2C) returns (id: bv8)
    requires i2c.mode == Ready
    modifies i2c`ops, i2c`wire, i2c`mode, i2c`answers, i2c`incoming
    ensures id == ByteIn(old(i2c.incoming), 0) && i2c.incoming == Drop(old(i2c.incoming), 1)
    ensures i2c.ops == old(i2c.ops) + ReadRegOps(WHO_AM_I)
    ensures i2c.wire == old(i2c.wire) + ReadRegTokens(WHO_AM_I)
    ensures i2c.mode == Ready
  {
    id := ReadReg(i2c, WHO_AM_I);
  }

  /** The value of one axis: the next two bytes of the data register after a of them, high byte first. */
  function Sample(q: seq<bv8>, a: nat): int
  {
    Combine(ByteIn(q, a), ByteIn(q, a + 1))
  }

  lemma ByteInDrop(q: seq<bv8>, a: nat, i: nat)
    ensures ByteIn(Drop(q, a), i) == ByteIn(q, a + i)
  {
  }

  function AxisOps(regH: bv8, regL: bv8): seq<Op>
  {
    ReadRegOps(regH) + ReadRegOps(regL)
  }

  function AxisTokens(regH: bv8, regL: bv8): seq<Token>
  {
    ReadRegTokens(regH) + ReadRegTokens(regL)
  }

  /** Two ReadReg calls and the combination `(DataH << 8) | DataL`, as GetData does for each axis. */
  method ReadAxis(i2c: I2C, regH: bv8, regL: bv8, ghost q: seq<bv8>, ghost a: nat, ghost next: nat) returns (v: int)
    requires i2c.mode == Ready && i2c.incoming == Drop(q, a) && next == a + 2
    modifies i2c`ops, i2c`wire, i2c`mode, i2c`answers, i2c`incoming
    ensures v == Sample(q, a)
    ensures i2c.incoming == Drop(q, next)
    ensures i2c.ops == old(i2c.ops) + AxisOps(regH, regL)
    ensures i2c.wire == old(i2c.wire) + AxisTokens(regH, regL)
    ensures i2c.mode == Ready
  {
    ghost var o, w := i2c.ops, i2c.wire;
    var h := ReadReg(i2c, regH);
    assert h == ByteIn(q, a) by { ByteInDrop(q, a, 0); }
    assert i2c.incoming == Drop(q, a + 1) by { DropDrop(q, a, 1); }
    var l := ReadReg(i2c, regL);
    assert l == ByteIn(q, a + 1) by { ByteInDrop(q, a + 1, 0); }
    assert i2c.incoming == Drop(q, a + 2) by { DropDrop(q, a + 1, 1); }
    Regroup2(o, ReadRegOps(regH), ReadRegOps(regL));
    Regroup2(w, ReadRegTokens(regH), ReadRegTokens(regL));
    v := Combine(h, l);
  }

  /** MPU6050_GetData (hardware): the same twelve registers in the same order as the bit-banged version. */
  method GetData(i2c: I2C) returns (accX: int, accY: int, accZ: int, gyroX: int, gyroY: int, gyroZ: int)
    requires i2c.mode == Ready
    modifies i2c`ops, i2c`wire, i2c`mode, i2c`answers, i2c`incoming
    ensures i2c.ops == old(i2c.ops)
      + AxisOps(ACCEL_XOUT_H, ACCEL_XOUT_L) + AxisOps(ACCEL_YOUT_H, ACCEL_YOUT_L)
      + AxisOps(ACCEL_ZOUT_H, ACCEL_ZOUT_L) + AxisOps(GYRO_XOUT_H, GYRO_XOUT_L)
      + AxisOps(GYRO_YOUT_H, GYRO_YOUT_L) + AxisOps(GYRO_ZOUT_H, GYRO_ZOUT_L)
    ensures i2c.wire == old(i2c.wire)
      + AxisTokens(ACCEL_XOUT_H, ACCEL_XOUT_L) + AxisTokens(ACCEL_YOUT_H, ACCEL_YOUT_L)
      + AxisTokens(ACCEL_ZOUT_H, ACCEL_ZOUT_L) + AxisTokens(GYRO_XOUT_H, GYRO_XOUT_L)
      + AxisTokens(GYRO_YOUT_H, GYRO_YOUT_L) + AxisTokens(GYRO_ZOUT_H, GYRO_ZOUT_L)
    ensures i2c.incoming == Drop(old(i2c.incoming), 12)
    ensures i2c.mode == Ready
    ensures accX == Sample(old(i2c.incoming), 0) && accY == Sample(old(i2c.incoming), 2)
    ensures accZ == Sample(old(i2c.incoming), 4) && gyroX == Sample(old(i2c.incoming), 6)
    ensures gyroY == Sample(old(i2c.incoming), 8) && gyroZ == Sample(old(i2c.incoming), 10)
  {
    ghost var q := i2c.incoming;
    assert q == Drop(q, 0);
    accX := ReadAxis(i2c, ACCEL_XOUT_H, ACCEL_XOUT_L, q, 0, 2);
    accY := ReadAxis(i2c, ACCEL_YOUT_H, ACCEL_YOUT_L, q, 2, 4);
    accZ := ReadAxis(i2c, ACCEL_ZOUT_H, ACCEL_ZOUT_L, q, 4, 6);
    gyroX := ReadAxis(i2c, GYRO_XOUT_H, GYRO_XOUT_L, q, 6, 8);
    gyroY := ReadAxis(i2c, GYRO_YOUT_H, GYRO_YOUT_L, q, 8, 10);
    gyroZ := ReadAxis(i2c, GYRO_ZOUT_H, GYRO_ZOUT_L, q, 10, 12);
  }
}
