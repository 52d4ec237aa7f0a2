// The capstone data logger (main_data_logger.c): 32-byte sensor records
// programmed one after another into a 32 KiB region of SPI flash, dumped
// back in order, and a small line-command interface.

module DataLogger {

  import opened CInt
  import opened CText

  const RECORD_SIZE: int := 32
  const SECTOR_SIZE: int := 4096
  /** The record slots in one 4 KiB sector. */
  const SECTOR_SLOTS: int := 128
  const CAP: int := 8 * 4096
  /** The number of record slots, cap / record size. */
  const TOTAL: int := 1024
  const DUMP_DEFAULT: int := 64
  const TICKS_PER_RECORD: int := 20

  // ---------------------------------------------------------------------
  // Record layout

  /** A byte of the record buffer, `uint8_t`. */
  type Byte = x: int | 0 <= x < 256

  /** One sample: seq and RTC seconds (uint32_t), six int16_t motion values, four uint16_t ADC values. */
  datatype Record = Record(seqNo: int, ts: int, imu: seq<int>, adc: seq<int>)

  predicate ValidRecord(r: Record)
  {
    0 <= r.seqNo < U32_MOD && 0 <= r.ts < U32_MOD && |r.imu| == 6 && |r.adc| == 4
    && (forall i :: 0 <= i < 6 ==> -0x8000 <= r.imu[i] < 0x8000)
    && (forall i :: 0 <= i < 4 ==> 0 <= r.adc[i] < U16_MOD)
  }

  /** Byte j (little-endian) of a uint32_t, `(uint8_t)(v >> 8*j)`. */
  function Byte32(v: int, j: int): Byte
    requires 0 <= v < U32_MOD && 0 <= j < 4
  {
    if j == 0 then v % 256
    else if j == 1 then v / 256 % 256
    else if j == 2 then v / 256 / 256 % 256
    else v / 256 / 256 / 256
  }

  /**
   * The 16-bit pattern of an int16_t. Shifting a negative int16_t right by 8
   * (arithmetically, as on the Cortex-M3) and truncating to uint8_t takes the
   * high byte of this pattern.
   */
  function Pattern(v: int): (u: int)
    requires -0x8000 <= v < 0x8000
    ensures 0 <= u < U16_MOD
  {
    if v < 0 then v + U16_MOD else v
  }

  /** The int16_t a 16-bit pattern denotes, `(int16_t)u`. */
  function Signed(u: int): (v: int)
    requires 0 <= u < U16_MOD
    ensures -0x8000 <= v < 0x8000
  {
    if u >= 0x8000 then u - U16_MOD else u
  }

  /** Byte j (little-endian) of a 16-bit pattern. */
  function Byte16(u: int, j: int): Byte
    requires 0 <= u < U16_MOD && 0 <= j < 2
  {
    if j == 0 then u % 256 else u / 256
  }

  /** Byte k of the record that log_write_one programs. */
  function RecordByte(r: Record, k: int): Byte
    requires ValidRecord(r) && 0 <= k < RECORD_SIZE
  {
    if k == 0 then 0xCA
    else if k == 1 then 0xFE
    else if k < 6 then Byte32(r.seqNo, k - 2)
    else if k < 10 then Byte32(r.ts, k - 6)
    else if k < 22 then Byte16(Pattern(r.imu[(k - 10) / 2]), (k - 10) % 2)
    else if k < 30 then Byte16(r.adc[(k - 22) / 2], (k - 22) % 2)
    else 0
  }

  /** The ten header bytes: magic, then seq and timestamp low byte first. */
  function Header(r: Record): seq<Byte>
    requires ValidRecord(r)
  {
    [0xCA, 0xFE, Byte32(r.seqNo, 0), Byte32(r.seqNo, 1), Byte32(r.seqNo, 2), Byte32(r.seqNo, 3),
     Byte32(r.ts, 0), Byte32(r.ts, 1), Byte32(r.ts, 2), Byte32(r.ts, 3)]
  }

  lemma HeaderBytes(r: Record)
    requires ValidRecord(r)
    ensures Encode(r)[..10] == Header(r)
  {
  }

  function Encode(r: Record): (b: seq<Byte>)
    requires ValidRecord(r)
    ensures |b| == RECORD_SIZE && b[0] == 0xCA && b[1] == 0xFE && b[30] == 0 && b[31] == 0
  {
    seq(RECORD_SIZE, k requires 0 <= k < RECORD_SIZE => RecordByte(r, k))
  }

  /** `b[k] | b[k+1] << 8 | b[k+2] << 16 | b[k+3] << 24`; the bytes do not overlap, so | is +. */
  function Word32(b: seq<Byte>, k: int): (v: int)
    requires 0 <= k && k + 4 <= |b|
    ensures 0 <= v < U32_MOD
  {
    b[k] as int + 256 * (b[k + 1] as int + 256 * (b[k + 2] as int + 256 * b[k + 3] as int))
  }

  /** `b[k] | b[k+1] << 8` as a uint16_t. */
  function Word16(b: seq<Byte>, k: int): (u: int)
    requires 0 <= k && k + 2 <= |b|
    ensures 0 <= u < U16_MOD
  {
    b[k] as int + 256 * b[k + 1] as int
  }

  predicate HasHeader(b: seq<Byte>)
    requires |b| == RECORD_SIZE
  {
    b[0] == 0xCA && b[1] == 0xFE
  }

  /** The fields log_dump reassembles from a record's bytes; bytes 0, 1, 30 and 31 are not read. */
  function Decode(b: seq<Byte>): (r: Record)
    requires |b| == RECORD_SIZE
    ensures ValidRecord(r)
  {
    Record(Word32(b, 2), Word32(b, 6),
           seq(6, i requires 0 <= i < 6 => Signed(Word16(b, 10 + 2 * i))),
           seq(4, i requires 0 <= i < 4 => Word16(b, 22 + 2 * i)))
  }

  lemma Word32Bytes(b: seq<Byte>, k: int, v: int)
    requires 0 <= v < U32_MOD && 0 <= k && k + 4 <= |b|
    requires b[k] == Byte32(v, 0) && b[k + 1] == Byte32(v, 1) && b[k + 2] == Byte32(v, 2) && b[k + 3] == Byte32(v, 3)
    ensures Word32(b, k) == v
  {
    var q1 := v / 256;
    var q2 := q1 / 256;
    assert v == b[k] as int + 256 * q1;
    assert q1 == b[k + 1] as int + 256 * q2;
    assert q2 == b[k + 2] as int + 256 * b[k + 3] as int;
  }

  /** Euclidean division by 256 of a value given as quotient and remainder. */
  lemma DivMod256(n: int, q: int, r: int)
    requires n == 256 * q + r && 0 <= r < 256
    ensures n / 256 == q && n % 256 == r
  {
  }

  lemma Word16Bytes(b: seq<Byte>, k: int, u: int)
    requires 0 <= u < U16_MOD && 0 <= k && k + 2 <= |b|
    requires b[k] == Byte16(u, 0) && b[k + 1] == Byte16(u, 1)
    ensures Word16(b, k) == u
  {
  }

  lemma Bytes32Word(b: seq<Byte>, k: int, j: int)
    requires 0 <= k && k + 4 <= |b| && 0 <= j < 4
    ensures Byte32(Word32(b, k), j) == b[k + j]
  {
    var w := Word32(b, k);
    var q2 := b[k + 2] as int + 256 * b[k + 3] as int;
    var q1 := b[k + 1] as int + 256 * q2;
    DivMod256(w, q1, b[k] as int);
    DivMod256(q1, q2, b[k + 1] as int);
    DivMod256(q2, b[k + 3] as int, b[k + 2] as int);
  }

  lemma Bytes16Word(b: seq<Byte>, k: int, j: int)
    requires 0 <= k && k + 2 <= |b| && 0 <= j < 2
    ensures Byte16(Word16(b, k), j) == b[k + j]
  {
    DivMod256(Word16(b, k), b[k + 1] as int, b[k] as int);
  }

  /** Decoding an encoded record gives back every field exactly. */
  lemma DecodeEncode(r: Record)
    requires ValidRecord(r)
    ensures Decode(Encode(r)) == r
  {
    var d := Decode(Encode(r));
    HeaderDecodes(r);
    forall i | 0 <= i < 6
      ensures d.imu[i] == r.imu[i]
    {
      MotionDecodes(r, i);
    }
    forall i | 0 <= i < 4
      ensures d.adc[i] == r.adc[i]
    {
      AdcDecodes(r, i);
    }
    assert d.seqNo == r.seqNo && d.ts == r.ts;
    assert d.imu == r.imu && d.adc == r.adc;
  }

  lemma HeaderDecodes(r: Record)
    requires ValidRecord(r)
    ensures Decode(Encode(r)).seqNo == r.seqNo && Decode(Encode(r)).ts == r.ts
  {
    var b := Encode(r);
    assert b[2] == RecordByte(r, 2) && b[3] == RecordByte(r, 3) && b[4] == RecordByte(r, 4) && b[5] == RecordByte(r, 5);
    Word32Bytes(b, 2, r.seqNo);
    assert b[6] == RecordByte(r, 6) && b[7] == RecordByte(r, 7) && b[8] == RecordByte(r, 8) && b[9] == RecordByte(r, 9);
    Word32Bytes(b, 6, r.ts);
  }

  lemma MotionDecodes(r: Record, i: int)
    requires ValidRecord(r) && 0 <= i < 6
    ensures Decode(Encode(r)).imu[i] == r.imu[i]
  {
    var b := Encode(r);
    PairBytes(r, 10, i);
    Word16Bytes(b, 10 + 2 * i, Pattern(r.imu[i]));
  }

  lemma AdcDecodes(r: Record, i: int)
    requires ValidRecord(r) && 0 <= i < 4
    ensures Decode(Encode(r)).adc[i] == r.adc[i]
  {
    var b := Encode(r);
    var k := 22 + 2 * i;
    PairBytes(r, 22, i);
    assert b[k] == RecordByte(r, k) && b[k + 1] == RecordByte(r, k + 1);
    Word16Bytes(b, k, r.adc[i]);
  }

  /** A 32-byte block with the header and a zero tail is the encoding of what it decodes to. */
  lemma EncodeDecode(b: seq<Byte>)
    requires |b| == RECORD_SIZE && HasHeader(b) && b[30] == 0 && b[31] == 0
    ensures Encode(Decode(b)) == b
  {
    var e := Encode(Decode(b));
    forall k | 0 <= k < RECORD_SIZE
      ensures e[k] == b[k]
    {
      if 2 <= k < 10 {
        HeaderEncodes(b, k);
      } else if 10 <= k < 30 {
        BodyEncodes(b, k);
      }
    }
  }

  lemma HeaderEncodes(b: seq<Byte>, k: int)
    requires |b| == RECORD_SIZE && 2 <= k < 10
    ensures RecordByte(Decode(b), k) == b[k]
  {
    if k < 6 {
      Bytes32Word(b, 2, k - 2);
    } else {
      Bytes32Word(b, 6, k - 6);
    }
  }

  lemma BodyEncodes(b: seq<Byte>, k: int)
    requires |b| == RECORD_SIZE && 10 <= k < 30
    ensures RecordByte(Decode(b), k) == b[k]
  {
    var r := Decode(b);
    if k < 22 {
      var i := (k - 10) / 2;
      PairBytes(r, 10, i);
      Bytes16Word(b, 10 + 2 * i, k - 10 - 2 * i);
    } else {
      var i := (k - 22) / 2;
      PairBytes(r, 22, i);
      Bytes16Word(b, 22 + 2 * i, k - 22 - 2 * i);
    }
  }

  /** The two bytes of value i in the motion block (base 10) or the ADC block (base 22). */
  lemma PairBytes(r: Record, base: int, i: int)
    requires ValidRecord(r) && ((base == 10 && 0 <= i < 6) || (base == 22 && 0 <= i < 4))
    ensures base == 10 ==>
      RecordByte(r, base + 2 * i) == Byte16(Pattern(r.imu[i]), 0)
      && RecordByte(r, base + 2 * i + 1) == Byte16(Pattern(r.imu[i]), 1)
    ensures base == 22 ==>
      RecordByte(r, base + 2 * i) == Byte16(r.adc[i], 0)
      && RecordByte(r, base + 2 * i + 1) == Byte16(r.adc[i], 1)
  {
    assert (2 * i) / 2 == i && (2 * i) % 2 == 0;
    assert (2 * i + 1) / 2 == i && (2 * i + 1) % 2 == 1;
  }

  // ---------------------------------------------------------------------
  // The flash region and the dump

  /** What reading slot i returns: the programmed bytes, or 0xFF throughout when erased. */
  function Slot(flash: map<int, seq<Byte>>, i: int): (b: seq<Byte>)
    requires forall k :: k in flash ==> |flash[k]| == RECORD_SIZE
    ensures |b| == RECORD_SIZE
  {
    if i in flash then flash[i] else seq(RECORD_SIZE, _ => 0xFF as Byte)
  }

  /** An erased block: NOR flash erases to 1 bits, 0xFF in every byte. */
  function Erased(): (b: seq<Byte>)
    ensures |b| == RECORD_SIZE && forall k :: 0 <= k < RECORD_SIZE ==> b[k] == 0xFF
  {
    seq(RECORD_SIZE, _ => 0xFF as Byte)
  }

  /** One byte after a page program: a program can only clear bits, so the cell keeps old AND new. */
  function And(a: Byte, b: Byte): (c: Byte)
    ensures a == 0xFF ==> c == b
    ensures a == b ==> c == a
  {
    AndLow(a, b, 8);
    AndOnes(b, 8);
    AndSelf(a, 8);
    AndBits(a, b, 8)
  }

  /** A zero byte clears every bit it is ANDed with. */
  lemma {:induction false} AndZero(b: nat, n: nat)
    ensures AndBits(0, b, n) == 0
  {
    if n > 0 {
      AndZero(b / 2, n - 1);
    }
  }

  /** The low n bits of a & b, bit by bit from the least significant one. */
  function AndBits(a: nat, b: nat, n: nat): nat
  {
    if n == 0 then 0
    else 2 * AndBits(a / 2, b / 2, n - 1) + (if a % 2 == 1 && b % 2 == 1 then 1 else 0)
  }

  function Pow2(n: nat): (p: nat)
    ensures p >= 1
  {
    if n == 0 then 1 else 2 * Pow2(n - 1)
  }

  lemma {:induction false} AndLow(a: nat, b: nat, n: nat)
    ensures AndBits(a, b, n) < Pow2(n)
  {
    if n > 0 {
      AndLow(a / 2, b / 2, n - 1);
    }
  }

  /** ANDing with n one bits keeps an n-bit value. */
  lemma {:induction false} AndOnes(b: nat, n: nat)
    requires b < Pow2(n)
    ensures AndBits(Pow2(n) - 1, b, n) == b
  {
    if n > 0 {
      assert (Pow2(n) - 1) / 2 == Pow2(n - 1) - 1 && (Pow2(n) - 1) % 2 == 1;
      AndOnes(b / 2, n - 1);
    }
  }

  /** ANDing an n-bit value with itself keeps it. */
  lemma {:induction false} AndSelf(a: nat, n: nat)
    requires a < Pow2(n)
    ensures AndBits(a, a, n) == a
  {
    if n > 0 {
      AndSelf(a / 2, n - 1);
    }
  }

  /** The block W25Q64_PageProgram leaves when it programs `data` over the cells it finds. */
  function Program(cells: seq<Byte>, data: seq<Byte>): (b: seq<Byte>)
    requires |cells| == RECORD_SIZE && |data| == RECORD_SIZE
    ensures |b| == RECORD_SIZE
    ensures forall k :: 0 <= k < RECORD_SIZE ==> b[k] == And(cells[k], data[k])
  {
    seq(RECORD_SIZE, k requires 0 <= k < RECORD_SIZE => And(cells[k], data[k]))
  }

  /** Programming an erased block stores exactly the data, so an erased slot reads back the record. */
  lemma ProgramErased(data: seq<Byte>)
    requires |data| == RECORD_SIZE
    ensures Program(Erased(), data) == data
  {
    forall k | 0 <= k < RECORD_SIZE
      ensures Program(Erased(), data)[k] == data[k]
    {
      assert Erased()[k] == 0xFF;
    }
  }

  /** A region of the 1024 slots, each block 32 bytes. */
  predicate Region(f: map<int, seq<Byte>>)
  {
    forall k :: k in f ==> 0 <= k < TOTAL && |f[k]| == RECORD_SIZE
  }

  /**
   * The region after W25Q64_PageProgram writes e to slot i: the slot keeps
   * what it held AND e, which is e itself when it was erased; every other
   * slot is as it was.
   */
  function Written(f: map<int, seq<Byte>>, i: int, e: seq<Byte>): (m: map<int, seq<Byte>>)
    requires Region(f) && 0 <= i < TOTAL && |e| == RECORD_SIZE
    ensures Region(m) && i in m && m[i] == Program(Slot(f, i), e)
    ensures i !in f ==> m[i] == e
    ensures forall k :: k != i ==> (k in m <==> k in f)
    ensures forall k :: k != i && k in f ==> m[k] == f[k]
  {
    ProgramErased(e);
    assert i !in f ==> Slot(f, i) == Erased();
    f[i := Program(Slot(f, i), e)]
  }

  /**
   * log_write_one programs over a slot without erasing it. When s_wr has
   * wrapped, record 1024 lands on slot 0, which still holds record 0: the
   * one bit of seq 1024 (bit 2 of byte 3) cannot be set, so the slot keeps
   * the old record's bytes and the dump shows record 0 again.
   */
  lemma StaleSlotCorrupts()
    ensures var old0 := Record(0, 7, [0, 0, 0, 0, 0, 0], [0, 0, 0, 0]);
      var new0 := Record(1024, 7, [0, 0, 0, 0, 0, 0], [0, 0, 0, 0]);
      var b := Program(Encode(old0), Encode(new0));
      HasHeader(b) && Decode(b) == old0 && Decode(b) != new0
  {
    var old0 := Record(0, 7, [0, 0, 0, 0, 0, 0], [0, 0, 0, 0]);
    var new0 := Record(1024, 7, [0, 0, 0, 0, 0, 0], [0, 0, 0, 0]);
    var b := Program(Encode(old0), Encode(new0));
    forall k | 0 <= k < RECORD_SIZE
      ensures b[k] == Encode(old0)[k]
    {
      if k == 3 {
        assert Encode(old0)[k] == 0;
        AndZero(Encode(new0)[k], 8);
      } else if 2 <= k < 6 {
        assert Encode(new0)[k] == 0 == Encode(old0)[k];
      } else {
        assert Encode(new0)[k] == Encode(old0)[k];
      }
    }
    assert b == Encode(old0);
    DecodeEncode(old0);
  }

  /** The region with the 128 slots of sector s erased and every other slot kept. */
  function WithoutSector(flash: map<int, seq<Byte>>, s: int): (m: map<int, seq<Byte>>)
    ensures forall k :: k in m <==> k in flash && !(s * SECTOR_SLOTS <= k < s * SECTOR_SLOTS + SECTOR_SLOTS)
    ensures forall k :: k in m ==> m[k] == flash[k]
  {
    map k | k in flash && !(s * SECTOR_SLOTS <= k < s * SECTOR_SLOTS + SECTOR_SLOTS) :: flash[k]
  }

  /** The records log_dump prints from slots 0 .. n-1, skipping slots without the CA FE header. */
  function Dumped(flash: map<int, seq<Byte>>, n: nat): seq<Record>
    requires forall k :: k in flash ==> |flash[k]| == RECORD_SIZE
  {
    if n == 0 then []
    else
      var b := Slot(flash, n - 1);
      Dumped(flash, n - 1) + (if HasHeader(b) then [Decode(b)] else [])
  }

  /** An erased region dumps nothing. */
  lemma {:induction false} DumpErased(n: nat)
    ensures Dumped(map[], n) == []
  {
    if n > 0 {
      DumpErased(n - 1);
    }
  }

  /** The region after programming record i into slot i, for each i, starting from erased flash. */
  function Programmed(rs: seq<Record>): (m: map<int, seq<Byte>>)
    requires forall i :: 0 <= i < |rs| ==> ValidRecord(rs[i])
    ensures forall k :: k in m <==> 0 <= k < |rs|
    ensures forall k :: k in m ==> |m[k]| == RECORD_SIZE && m[k] == Encode(rs[k])
  {
    map i | 0 <= i < |rs| :: Encode(rs[i])
  }

  /** Records programmed into slots 0, 1, ... from an erased region are dumped back in order. */
  lemma {:induction false} DumpLogged(rs: seq<Record>, n: nat)
    requires forall i :: 0 <= i < |rs| ==> ValidRecord(rs[i])
    requires n <= |rs|
    ensures Dumped(Programmed(rs), n) == rs[..n]
  {
    if n > 0 {
      var m := Programmed(rs);
      DumpLogged(rs, n - 1);
      DecodeEncode(rs[n - 1]);
      assert Slot(m, n - 1) == Encode(rs[n - 1]);
      assert Dumped(m, n) == Dumped(m, n - 1) + [rs[n - 1]];
      PrefixSnoc(rs, n);
    }
  }

  lemma PrefixSnoc<T>(s: seq<T>, n: int)
    requires 0 < n <= |s|
    ensures s[..n] == s[..n - 1] + [s[n - 1]]
  {
  }

  // ---------------------------------------------------------------------
  // Command lines

  /** How many records "dump<arg>" asks for: (uint32_t)atoi(arg), with 0 meaning 64. */
  function DumpCount(arg: seq<char>): (n: int)
    ensures 0 < n < U32_MOD
  {
    var n := U32(Atoi(arg));
    if n == 0 then DUMP_DEFAULT else n
  }

  lemma DumpCountDefault()
    ensures DumpCount("") == DUMP_DEFAULT && DumpCount(" 0") == DUMP_DEFAULT
    ensures DumpCount(" 128") == 128
  {
    AtoiExamples();
  }

  /** The commands cmd recognises, tried by prefix in this order. */
  datatype Command = Start | Stop | Clear | DumpN(n: int) | Status | Unknown

  function Parse(line: seq<char>): (c: Command)
    ensures c.DumpN? ==> 0 < c.n < U32_MOD
  {
    if StartsWith(line, "start") then Start
    else if StartsWith(line, "stop") then Stop
    else if StartsWith(line, "clear") then Clear
    else if StartsWith(line, "dump") then DumpN(DumpCount(line[4..]))
    else if StartsWith(line, "status") then Status
    else Unknown
  }

  /** "dump" alone dumps 64 records, and "dump 128" dumps 128. */
  lemma ParseDump()
    ensures Parse("dump") == DumpN(DUMP_DEFAULT) && Parse("dump 128") == DumpN(128)
  {
    DumpCountDefault();
    assert "dump"[..4] == "dump" && "dump"[4..] == "";
    assert "dump 128"[..4] == "dump" && "dump 128"[4..] == " 128";
    assert "dump"[0] != "start"[0] && "dump"[0] != "stop"[0] && "dump"[0] != "clear"[0];
    assert "dump 128"[..5] != "start" by { assert "dump 128"[..5][0] != "start"[0]; }
    assert "dump 128"[..4] != "stop" by { assert "dump 128"[..4][0] != "stop"[0]; }
    assert "dump 128"[..5] != "clear" by { assert "dump 128"[..5][0] != "clear"[0]; }
  }

  /** What a command line makes the logger send back. */
  datatype Reply =
    | OkStart | OkStop | OkClear
    | Listing(records: seq<Record>)
    | Report(running: bool, seqNo: int, wr: int)
    | Usage

  // ---------------------------------------------------------------------
  // The logger state

  class Logger {
    /** s_wr: byte offset of the next record from LOG_BASE. */
    var wr: int
    /** s_seq: the number given to the next record. */
    var seqNo: int
    /** s_running. */
    var running: bool
    /** The main loop's tick counter. */
    var tick: int
    /** The flash region: slot index to the 32 bytes programmed there; absent slots are erased. */
    var flash: map<int, seq<Byte>>

    ghost predicate Valid()
      reads this
    {
      0 <= wr < CAP && wr % RECORD_SIZE == 0 && 0 <= tick < U32_MOD && 0 <= seqNo < U32_MOD
      && Region(flash)
    }

    /** Power-up: the statics are zero; the flash keeps whatever was programmed before. */
    constructor (stored: map<int, seq<Byte>>)
      requires Region(stored)
      ensures Valid() && flash == stored
      ensures wr == 0 && seqNo == 0 && !running && tick == 0
    {
      wr, seqNo, running, tick := 0, 0, false, 0;
      flash := stored;
    }

    /** log_erase_all: erase the eight 4 KiB sectors, then restart at slot 0 with seq 0. */
    method EraseAll()
      requires Valid()
      modifies this`flash, this`wr, this`seqNo
      ensures Valid() && flash == map[] && wr == 0 && seqNo == 0
    {
      var s := 0;
      while s < 8
        invariant 0 <= s <= 8 && Valid()
        invariant forall k :: k in flash ==> k >= s * 128
      {
        flash := WithoutSector(flash, s);
        s := s + 1;
      }
      assert forall k :: k !in flash;
      assert flash == map[];
      wr := 0;
      seqNo := 0;
    }

    /** The record buffer of log_write_one, filled as the source fills it. */
    static method BuildRecord(r: Record) returns (rec: array<Byte>)
      requires ValidRecord(r)
      ensures fresh(rec) && rec[..] == Encode(r)
    {
      rec := new Byte[RECORD_SIZE](_ => 0);
      rec[0] := 0xCA;
      rec[1] := 0xFE;
      rec[2] := Byte32(r.seqNo, 0);
      rec[3] := Byte32(r.seqNo, 1);
      rec[4] := Byte32(r.seqNo, 2);
      rec[5] := Byte32(r.seqNo, 3);
      rec[6] := Byte32(r.ts, 0);
      rec[7] := Byte32(r.ts, 1);
      rec[8] := Byte32(r.ts, 2);
      rec[9] := Byte32(r.ts, 3);
      assert rec[..10] == Header(r);
      HeaderBytes(r);
      FillMotion(rec, r);
      FillAdc(rec, r);
      assert forall k :: 0 <= k < RECORD_SIZE ==> rec[k] == Encode(r)[k];
    }

    /** The first loop of log_write_one: the six int16_t values, low byte first, from byte 10. */
    static method FillMotion(rec: array<Byte>, r: Record)
      requires ValidRecord(r) && rec.Length == RECORD_SIZE
      requires rec[..10] == Encode(r)[..10]
      requires forall k :: 10 <= k < RECORD_SIZE ==> rec[k] == 0
      modifies rec
      ensures forall k :: 0 <= k < 22 ==> rec[k] == RecordByte(r, k)
      ensures forall k :: 22 <= k < RECORD_SIZE ==> rec[k] == 0
    {
      assert forall k :: 0 <= k < 10 ==> rec[k] == rec[..10][k] == Encode(r)[k];
      var i := 0;
      while i < 6
        invariant 0 <= i <= 6
        invariant forall k :: 0 <= k < 10 + 2 * i ==> rec[k] == RecordByte(r, k)
        invariant forall k :: 10 + 2 * i <= k < RECORD_SIZE ==> rec[k] == 0
      {
        PairBytes(r, 10, i);
        rec[10 + i * 2] := Byte16(Pattern(r.imu[i]), 0);
        rec[11 + i * 2] := Byte16(Pattern(r.imu[i]), 1);
        i := i + 1;
      }
    }

    /** The second loop: the four ADC values, low byte first, from byte 22. */
    static method FillAdc(rec: array<Byte>, r: Record)
      requires ValidRecord(r) && rec.Length == RECORD_SIZE
      requires forall k :: 0 <= k < 22 ==> rec[k] == RecordByte(r, k)
      requires forall k :: 22 <= k < RECORD_SIZE ==> rec[k] == 0
      modifies rec
      ensures forall k :: 0 <= k < RECORD_SIZE ==> rec[k] == RecordByte(r, k)
    {
      var i := 0;
      while i < 4
        invariant 0 <= i <= 4
        invariant forall k :: 0 <= k < 22 + 2 * i ==> rec[k] == RecordByte(r, k)
        invariant forall k :: 22 + 2 * i <= k < RECORD_SIZE ==> rec[k] == 0
      {
        PairBytes(r, 22, i);
        rec[22 + i * 2] := Byte16(r.adc[i], 0);
        rec[23 + i * 2] := Byte16(r.adc[i], 1);
        i := i + 1;
      }
    }

    /**
     * log_write_one with the sampled values as inputs: program the record at
     * slot wr/32 over whatever that slot holds, then advance wr by one record
     * (back to 0 at the end of the region) and seq by one (modulo 2^32).
     * Only an erased slot ends up holding exactly the record.
     */
    method WriteOne(ts: int, imu: seq<int>, adc: seq<int>)
      requires Valid() && ValidRecord(Record(seqNo, ts, imu, adc))
      modifies this`flash, this`wr, this`seqNo
      ensures Valid()
      ensures flash == Written(old(flash), old(wr) / RECORD_SIZE, Encode(Record(old(seqNo), ts, imu, adc)))
      ensures old(wr) / RECORD_SIZE !in old(flash) ==>
        flash[old(wr) / RECORD_SIZE] == Encode(Record(old(seqNo), ts, imu, adc))
      ensures seqNo == NextSeq(old(seqNo))
      ensures wr == NextWr(old(wr))
    {
      var rec := BuildRecord(Record(seqNo, ts, imu, adc));
      Append(rec[..]);
    }

    /** The tail of log_write_one: program the filled buffer at slot wr/32, then advance wr and seq. */
    method Append(e: seq<Byte>)
      requires Valid() && |e| == RECORD_SIZE
      modifies this`flash, this`wr, this`seqNo
      ensures Valid()
      ensures flash == Written(old(flash), old(wr) / RECORD_SIZE, e)
      ensures seqNo == NextSeq(old(seqNo))
      ensures wr == NextWr(old(wr))
    {
      NextOffset(wr);
      flash := Written(flash, wr / RECORD_SIZE, e);
      wr := wr + RECORD_SIZE;
      seqNo := (seqNo + 1) % U32_MOD;
      if wr >= CAP {
        wr := 0;
      }
    }

    /**
     * The slots from wr/32 to the end of its sector are erased, unless wr
     * starts a sector (where the corrected write erases first).
     */
    ghost predicate AheadErased()
      reads this
    {
      wr % SECTOR_SIZE == 0
      || forall k :: wr / RECORD_SIZE <= k < (wr / SECTOR_SIZE + 1) * SECTOR_SLOTS ==> k !in flash
    }

    /**
     * log_write_one with an erase of the sector when the write enters it,
     * at power-up and after the wrap as well: every record then lands in
     * an erased slot and reads back exactly.
     */
    method WriteOneErasing(ts: int, imu: seq<int>, adc: seq<int>)
      requires Valid() && AheadErased() && ValidRecord(Record(seqNo, ts, imu, adc))
      modifies this`flash, this`wr, this`seqNo
      ensures Valid() && AheadErased()
      ensures old(wr) / RECORD_SIZE in flash && flash[old(wr) / RECORD_SIZE] == Encode(Record(old(seqNo), ts, imu, adc))
      ensures Decode(Slot(flash, old(wr) / RECORD_SIZE)) == Record(old(seqNo), ts, imu, adc)
      ensures forall k :: k / SECTOR_SLOTS != old(wr) / SECTOR_SIZE && k in old(flash) ==> k in flash && flash[k] == old(flash)[k]
      ensures seqNo == NextSeq(old(seqNo))
      ensures wr == NextWr(old(wr))
    {
      ghost var r := Record(seqNo, ts, imu, adc);
      ghost var w, f := wr, flash;
      if wr % SECTOR_SIZE == 0 {
        flash := WithoutSector(flash, wr / SECTOR_SIZE);
      }
      WriteOne(ts, imu, adc);
      assert AheadErased() && flash[w / RECORD_SIZE] == Encode(r)
        && forall k :: k / SECTOR_SLOTS != w / SECTOR_SIZE && k in f ==> k in flash && flash[k] == f[k] by {
        ErasingWrite(f, w, Encode(r));
      }
      DecodeEncode(r);
    }
    /** log_dump: at most 1024 slots from slot 0 upward, whatever wr is. */
    method Dump(n: int) returns (out: seq<Record>)
      requires Valid() && 0 <= n < U32_MOD
      ensures out == Dumped(flash, Min(n, TOTAL))
    {
      var m := n;
      if m > TOTAL {
        m := TOTAL;
      }
      out := [];
      var i := 0;
      while i < m
        invariant 0 <= i <= m
        invariant out == Dumped(flash, i)
      {
        var rec := Slot(flash, i);
        i := i + 1;
        if !(rec[0] == 0xCA && rec[1] == 0xFE) {
          continue;
        }
        out := out + [Decode(rec)];
      }
    }

    /** cmd: act on the first of start, stop, clear, dump, status that prefixes the line. */
    method Command(line: seq<char>) returns (reply: Reply)
      requires Valid()
      modifies this`running, this`flash, this`wr, this`seqNo
      ensures Valid() && tick == old(tick)
      ensures match Parse(line)
        case Start => reply == OkStart && running && unchanged(this`flash, this`wr, this`seqNo)
        case Stop => reply == OkStop && !running && unchanged(this`flash, this`wr, this`seqNo)
        case Clear => reply == OkClear && running == old(running) && flash == map[] && wr == 0 && seqNo == 0
        case DumpN(n) => reply == Listing(Dumped(flash, Min(n, TOTAL))) && unchanged(this)
        case Status => reply == Report(running, seqNo, wr) && unchanged(this)
        case Unknown => reply == Usage && unchanged(this)
    {
      var c := Parse(line);
      match c
      case Start =>
        running := true;
        reply := OkStart;
      case Stop =>
        running := false;
        reply := OkStop;
      case Clear =>
        EraseAll();
        reply := OkClear;
      case DumpN(n) =>
        var records := Dump(n);
        reply := Listing(records);
      case Status =>
        reply := Report(running, seqNo, wr);
      case Unknown =>
        reply := Usage;
    }

    /** One pass of the main loop after the command: while running, every 20th tick writes a record. */
    method Tick(ts: int, imu: seq<int>, adc: seq<int>)
      requires Valid() && ValidRecord(Record(seqNo, ts, imu, adc))
      modifies this`flash, this`wr, this`seqNo, this`tick
      ensures Valid()
      ensures !old(running) ==> unchanged(this)
      ensures old(running) ==> tick == (old(tick) + 1) % U32_MOD
      ensures old(running) && old(tick) % TICKS_PER_RECORD == 0 ==>
        flash == Written(old(flash), old(wr) / RECORD_SIZE, Encode(Record(old(seqNo), ts, imu, adc)))
        && seqNo == NextSeq(old(seqNo))
      ensures old(running) && old(tick) % TICKS_PER_RECORD != 0 ==>
        flash == old(flash) && seqNo == old(seqNo) && wr == old(wr)
    {
      if running {
        var t := tick;
        tick := (tick + 1) % U32_MOD;
        if t % TICKS_PER_RECORD == 0 {
          WriteOne(ts, imu, adc);
        }
      }
    }
  }

  /** Where a record offset w sits: its slot is in sector w / 4096, and the next offset stays in that sector unless it starts a new one. */
  lemma SlotSector(w: int)
    requires 0 <= w < CAP && w % RECORD_SIZE == 0
    ensures var s := w / SECTOR_SIZE; s * SECTOR_SLOTS <= w / RECORD_SIZE < s * SECTOR_SLOTS + SECTOR_SLOTS
    ensures (w / RECORD_SIZE) / SECTOR_SLOTS == w / SECTOR_SIZE
    ensures (w + RECORD_SIZE) / RECORD_SIZE == w / RECORD_SIZE + 1
    ensures (w + RECORD_SIZE) % SECTOR_SIZE != 0 ==> (w + RECORD_SIZE) / SECTOR_SIZE == w / SECTOR_SIZE
  {
    var q := w / RECORD_SIZE;
    assert w == RECORD_SIZE * q;
    var s := q / SECTOR_SLOTS;
    var j := q % SECTOR_SLOTS;
    assert q == SECTOR_SLOTS * s + j;
    assert w == SECTOR_SIZE * s + RECORD_SIZE * j;
    DivMod4096(w, s, RECORD_SIZE * j);
    assert w + RECORD_SIZE == RECORD_SIZE * (q + 1);
    if j + 1 < SECTOR_SLOTS {
      DivMod4096(w + RECORD_SIZE, s, RECORD_SIZE * (j + 1));
    } else {
      DivMod4096(w + RECORD_SIZE, s + 1, 0);
    }
  }

  /**
   * Erasing the sector of offset w leaves the slots from w/32 to the
   * sector's end erased and every slot of another sector as it was.
   */
  lemma SectorKept(f: map<int, seq<Byte>>, w: int)
    requires 0 <= w < CAP && w % RECORD_SIZE == 0
    ensures var g := WithoutSector(f, w / SECTOR_SIZE);
      (forall k :: w / RECORD_SIZE <= k < (w / SECTOR_SIZE + 1) * SECTOR_SLOTS ==> k !in g)
      && (forall k :: k / SECTOR_SLOTS != w / SECTOR_SIZE && k in f ==> k in g && g[k] == f[k])
  {
    SlotSector(w);
    var g := WithoutSector(f, w / SECTOR_SIZE);
    forall k | k / SECTOR_SLOTS != w / SECTOR_SIZE && k in f
      ensures k in g && g[k] == f[k]
    {
      SectorOf(k, w / SECTOR_SIZE);
    }
  }

  /**
   * The corrected write at offset w: erase the sector first when w starts
   * it, then program e at slot w/32. The slot then holds exactly e, the
   * slots after it in the sector stay erased for the next offset, and the
   * other sectors keep what they held.
   */
  lemma ErasingWrite(f: map<int, seq<Byte>>, w: int, e: seq<Byte>)
    requires 0 <= w < CAP && w % RECORD_SIZE == 0 && |e| == RECORD_SIZE
    requires Region(f)
    requires w % SECTOR_SIZE == 0 || forall k :: w / RECORD_SIZE <= k < (w / SECTOR_SIZE + 1) * SECTOR_SLOTS ==> k !in f
    ensures var g := if w % SECTOR_SIZE == 0 then WithoutSector(f, w / SECTOR_SIZE) else f;
      Region(g) &&
      var m := Written(g, w / RECORD_SIZE, e);
      var n := NextWr(w);
      m[w / RECORD_SIZE] == e
      && (n % SECTOR_SIZE == 0 || forall k :: n / RECORD_SIZE <= k < (n / SECTOR_SIZE + 1) * SECTOR_SLOTS ==> k !in m)
      && (forall k :: k / SECTOR_SLOTS != w / SECTOR_SIZE && k in f ==> k in m && m[k] == f[k])
  {
    SlotSector(w);
    var g := if w % SECTOR_SIZE == 0 then WithoutSector(f, w / SECTOR_SIZE) else f;
    if w % SECTOR_SIZE == 0 {
      SectorKept(f, w);
    }
    assert w / RECORD_SIZE !in g;
  }

  /** A slot outside sector s has a sector number other than s. */
  lemma SectorOf(k: int, s: int)
    requires k / SECTOR_SLOTS != s
    ensures !(s * SECTOR_SLOTS <= k < s * SECTOR_SLOTS + SECTOR_SLOTS)
  {
  }

  /** s_seq++ on a uint32_t. */
  function NextSeq(s: int): (n: int)
    ensures 0 <= n < U32_MOD
    ensures 0 <= s && s + 1 < U32_MOD ==> n == s + 1
  {
    (s + 1) % U32_MOD
  }

  /** s_wr after a record at w: one record further, and back to 0 at the 32 KiB end. */
  function NextWr(w: int): (n: int)
    requires 0 <= w < CAP && w % RECORD_SIZE == 0
    ensures 0 <= n < CAP && n % RECORD_SIZE == 0
    ensures n == 0 || n == w + RECORD_SIZE
    ensures n == 0 <==> w + RECORD_SIZE == CAP
  {
    NextOffset(w);
    if w + RECORD_SIZE >= CAP then 0 else w + RECORD_SIZE
  }

  /** The offset after a record at w: the next multiple of 32, back to 0 at the end of the region. */
  lemma NextOffset(w: int)
    requires 0 <= w < CAP && w % RECORD_SIZE == 0
    ensures w / RECORD_SIZE < TOTAL
    ensures var n := if w + RECORD_SIZE >= CAP then 0 else w + RECORD_SIZE;
      0 <= n < CAP && n % RECORD_SIZE == 0
  {
    var q := w / RECORD_SIZE;
    assert w == RECORD_SIZE * q;
    assert w + RECORD_SIZE == RECORD_SIZE * (q + 1);
  }

  /** Euclidean division by 4096 of a value given as quotient and remainder. */
  lemma DivMod4096(n: int, q: int, r: int)
    requires n == SECTOR_SIZE * q + r && 0 <= r < SECTOR_SIZE
    ensures n / SECTOR_SIZE == q && n % SECTOR_SIZE == r
  {
  }

  /** The ticks 0 .. n-1 of a run that write a record: 0, 20, 40, ... */
  function Writes(n: nat): nat
  {
    if n == 0 then 0 else Writes(n - 1) + (if (n - 1) % TICKS_PER_RECORD == 0 then 1 else 0)
  }

  /** Starting from tick 0, n ticks write a record on the first tick and then on every 20th. */
  lemma {:induction false} WritesCount(n: nat)
    ensures Writes(n) == (n + TICKS_PER_RECORD - 1) / TICKS_PER_RECORD
  {
    if n > 0 {
      WritesCount(n - 1);
    }
  }
}
