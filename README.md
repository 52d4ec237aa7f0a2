# Verified model of the embedded lessons and capstone applications

This project models, in Dafny, the sequential logic of a set of bare-metal
microcontroller programs: the STM32F103 lessons (bit-banged and hardware
I2C with the MPU6050 register layer, USART receive and transmit helpers,
quadrature encoders, PWM, input capture, a DC-motor demo and a grenade
light-and-buzzer demo), the STM32 capstone applications (data logger,
habit tracker, Pomodoro timer, Bluetooth car, smart-home gateway, gesture
arm, self-test, music light, OLED spectrum) with their drivers (ring-buffer
serial, timer encoders, dual motor, TIM2 PWM, servo, watchdog,
multi-channel ADC with DMA, audio sampler), and the MCS-51 blink.

There is one module per source file, or per pair of lesson files that are
the same code. The design choices:

- Peripherals are modelled by the registers and pins the driver writes:
  fields of a class, updated in place by methods whose `modifies` clauses
  name the objects or fields each may write. Each interrupt handler is one atomic method
  call between the main loop's steps.
- Pins are booleans, or bits of a `bv16` output data register. C
  fixed-width arithmetic (`uint8_t`, `int8_t`, `uint16_t`, `int16_t`,
  `uint32_t`) is written out with the conversions of module `CInt`.
  Truncating C division is `CInt.CDiv`, because Dafny's `/` is Euclidean.
- The bit-banged I2C bus is a trace of the (SCL, SDA) levels the master
  drives. An independent receiver state machine turns a trace into START,
  STOP and data-bit symbols, as in sections 3.1.4 to 3.1.6 of the NXP
  I2C-bus specification UM10204. Section 3.1.10 gives the address byte
  with its R/W bit. The register-level operations are proved against the
  decoded symbols.
- The hardware I2C variant is a log of the driver's requests (START,
  address, data, ACK control, STOP) plus the answers the peripheral's
  event checks give.
- The MPU6050 register addresses follow the MPU-6050 register map.
  `MPU6050_Reg.h` is not part of this model.
- Transmission over a serial link is appended to a sequence of bytes
  sent. A line received is the C string `Serial_ReadLine` delivers.
- The flash parameter page `Store_Data` is an `array` of 512 `uint16_t`
  words, and `Store_Save` takes a snapshot of it. `Store.c` is not part
  of this model.
- Whatever comes from outside is an input of the step or method that
  reads it: key codes, RTC seconds, sensor pulse counts, encoder counts,
  device identifiers, the flash contents read back.

## Model

| member | source | states |
|---|---|---|
| MyI2C.WeightShift | stm32/learning/lesson_10-1/src/MyI2C.c:99 | the stepwise mask Weight(i) is the mask `0x80 >> i` that selects bit i of a byte in wire order |
| MyI2C.PackBitsMsb | stm32/learning/lesson_10-1/src/MyI2C.c:99-119 | packing the eight bits a byte is sent as, MSB first, gives the byte back (what SendByte writes, ReceiveByte reassembles) |
| MyI2C.BitsMsbPack | stm32/learning/lesson_10-1/src/MyI2C.c:116-121 | every eight-sample sequence is the MSB-first wire image of the byte ReceiveByte packs it to, so packing is a bijection |
| MyI2C.PackStep | stm32/learning/lesson_10-1/src/MyI2C.c:119 | one `Byte \|= 0x80 >> i` step adds bit i exactly when the sampled level is high |
| MyI2C.PackEight | stm32/learning/lesson_10-1/src/MyI2C.c:116-121 | the packed byte is the OR of the masks 0x80 .. 0x01 of the high samples, first sample in the top bit |
| MyI2C.Offered | stm32/learning/lesson_10-1/src/MyI2C.c:31-37 | a slave offers the levels of its queue in order and, once the queue runs out, leaves SDA released (high) |
| MyI2C.Head | stm32/learning/lesson_10-1/src/MyI2C.c:31-37 | the level at the next read is the first level offered |
| MyI2C.OfferedHead | stm32/learning/lesson_10-1/src/MyI2C.c:116-121 | the level read at the i-th of n reads is the i-th offered level |
| MyI2C.SamplesCompose | stm32/learning/lesson_10-1/src/MyI2C.c:116-147 | the samples of two consecutive reads of m and n levels are the samples of one read of m + n levels |
| MyI2C.ByteWave | stm32/learning/lesson_10-1/src/MyI2C.c:97-102 | SendByte's waveform has exactly three line writes per bit, one clock pulse per bit |
| MyI2C.Pulses | stm32/learning/lesson_10-1/src/MyI2C.c:116-121 | n clock pulses with SDA released are 2 n line states alternating SCL high and low |
| MyI2C.PulsesSnoc | stm32/learning/lesson_10-1/src/MyI2C.c:118-120 | one more ReceiveByte pass adds SCL released then SCL pulled low, SDA released throughout |
| MyI2C.HighSamplesAppend | stm32/learning/lesson_10-1/src/MyI2C.c:119 | sampling two runs of reads gives the samples of the first run followed by those of the second |
| MyI2C.RunAppend | stm32/learning/lesson_10-1/src/MyI2C.c:9-24 | decoding a trace in two parts is decoding the whole trace, so each primitive's waveform can be decoded on its own |
| MyI2C.StartDecodes | stm32/learning/lesson_10-1/src/MyI2C.c:66-72 | from an idle bus, or SCL low with no bit pending, MyI2C_Start's waveform decodes as exactly one START (SDA falls while SCL is high, UM10204 section 3.1.4) and leaves both lines low |
| MyI2C.StopDecodes | stm32/learning/lesson_10-1/src/MyI2C.c:80-85 | entered with SCL low, MyI2C_Stop's waveform decodes as exactly one STOP (SDA rises while SCL is high) and leaves the bus idle |
| MyI2C.BitDecodes | stm32/learning/lesson_10-1/src/MyI2C.c:99-134 | one data clock entered with SCL low decodes as exactly the bit on SDA (UM10204 section 3.1.3: SDA stable while SCL is high) |
| MyI2C.ByteDecodes | stm32/learning/lesson_10-1/src/MyI2C.c:94-103 | SendByte's clocks decode as the byte's bits in sending order, one symbol per clock, no START or STOP among them |
| MyI2C.PulsesDecode | stm32/learning/lesson_10-1/src/MyI2C.c:116-121 | n clocks with the master's SDA released decode as n one-bits on the master's side |
| MyI2C.ReceiveDecodes | stm32/learning/lesson_10-1/src/MyI2C.c:112-123 | during ReceiveByte the master drives nothing: its side of SDA shows eight released bits |
| MyI2C.BitSyms | stm32/learning/lesson_10-1/src/MyI2C.c:97-102 | the decoded data symbols are the bits in order |
| MyI2C.FramesStart | stm32/learning/lesson_10-1/src/MyI2C.c:66-72 | a START symbol groups into one START token ahead of the rest |
| MyI2C.FramesStop | stm32/learning/lesson_10-1/src/MyI2C.c:80-85 | a STOP symbol groups into one STOP token ahead of the rest |
| MyI2C.FramesByte | stm32/learning/lesson_10-1/src/MyI2C.c:94-150 | the eight MSB-first bits of a byte followed by the ninth (acknowledge) clock group into one byte token holding that byte and that acknowledge level (UM10204 sections 3.1.5 and 3.1.6) |
| MyI2C.Bus.constructor | stm32/learning/lesson_10-1/src/MyI2C.c:47-58 | the pins before initialisation and the levels a slave will offer; nothing written or sampled yet |
| MyI2C.Bus.WriteScl | stm32/learning/lesson_10-1/src/MyI2C.c:9-13 | MyI2C_W_SCL sets SCL alone and records the new line levels |
| MyI2C.Bus.WriteSda | stm32/learning/lesson_10-1/src/MyI2C.c:20-24 | MyI2C_W_SDA sets SDA alone and records the new line levels |
| MyI2C.Bus.ReadSda | stm32/learning/lesson_10-1/src/MyI2C.c:31-37 | MyI2C_R_SDA reads the wired AND of the master's SDA and the slave's next level, consuming that level and recording the sample |
| MyI2C.Bus.Init | stm32/learning/lesson_10-1/src/MyI2C.c:47-58 | MyI2C_Init releases SCL and SDA together, leaving the bus idle |
| MyI2C.Bus.Start | stm32/learning/lesson_10-1/src/MyI2C.c:66-72 | MyI2C_Start writes SDA high, SCL high, SDA low, SCL low, ending with both lines low |
| MyI2C.Bus.Stop | stm32/learning/lesson_10-1/src/MyI2C.c:80-85 | MyI2C_Stop writes SDA low, SCL high, SDA high, ending with both lines high |
| MyI2C.Bus.SendByte | stm32/learning/lesson_10-1/src/MyI2C.c:94-103 | MyI2C_SendByte emits one data clock per bit of the byte, MSB first, and leaves SCL low |
| MyI2C.Bus.SendBit | stm32/learning/lesson_10-1/src/MyI2C.c:99-101 | one loop pass puts the bit on SDA, then pulses SCL, leaving SCL low |
| MyI2C.Bus.ReceiveBit | stm32/learning/lesson_10-1/src/MyI2C.c:118-120 | one loop pass pulses SCL and ORs bit i in exactly when the sampled level is high |
| MyI2C.Bus.ReceiveByte | stm32/learning/lesson_10-1/src/MyI2C.c:112-123 | MyI2C_ReceiveByte releases SDA, clocks eight times, returns the eight levels sampled while SCL was high packed MSB first, consumes them from the slave and leaves SCL low |
| MyI2C.Bus.SendAck | stm32/learning/lesson_10-1/src/MyI2C.c:130-135 | MyI2C_SendAck holds SDA at the acknowledge bit (nonzero = NACK, released) for one clock, leaving SCL low |
| MyI2C.Bus.ReceiveAck | stm32/learning/lesson_10-1/src/MyI2C.c:142-150 | MyI2C_ReceiveAck releases SDA, samples it once while SCL is high and returns that level as 0 or 1, with no retry and no timeout, leaving SCL low |
| MyI2C.ReceiveDriven | stm32/learning/lesson_10-1/src/MyI2C.c:112-123 | a slave that drives the eight bits of v MSB first is read as exactly v |
| MyI2C.ReceiveReleased | stm32/learning/lesson_10-1/src/MyI2C.c:112-123 | a slave that drives nothing lets the pull-up win, and the byte reads as 0xFF |
| Mpu6050Regs.Join | stm32/learning/lesson_10-1/src/MPU6050.c:92 | `(DataH << 8) \| DataL` stored in an int16_t is always in the int16 range (the 16-bit pattern read as two's complement) |
| Mpu6050Regs.Split | stm32/learning/lesson_10-1/src/MPU6050.c:92 | the reference inverse: an int16 value as its high and low byte |
| Mpu6050Regs.CombineSplit | stm32/learning/lesson_10-1/src/MPU6050.c:92-112 | every byte pair combines to an int16 from which the pair is recovered, so no two pairs give the same axis value |
| Mpu6050Regs.JoinSplit | stm32/learning/lesson_10-1/src/MPU6050.c:92 | splitting a combined value gives back its high and low byte |
| Mpu6050Regs.SplitCombine | stm32/learning/lesson_10-1/src/MPU6050.c:92 | every int16 value is the combination of its own two bytes, so the combination reaches every axis value |
| Mpu6050Regs.CombineSign | stm32/learning/lesson_10-1/src/MPU6050.c:92 | an axis value is negative exactly when bit 7 of the high byte is set |
| Mpu6050Regs.CombineExamples | stm32/learning/lesson_10-1/src/MPU6050.c:92 | H = 0xFF, L = 0x00 gives -256; 0x7FFF gives 32767 and 0x8000 gives -32768 |
| Mpu6050Soft.ByteAckDecodes | stm32/learning/lesson_10-1/src/MPU6050.c:16-17 | a SendByte followed by an acknowledge clock decodes as the byte's eight bits and the acknowledge bit |
| Mpu6050Soft.WriteRegDecodes | stm32/learning/lesson_10-1/src/MPU6050.c:13-23 | WriteReg's waveform decodes as START, the bits of 0xD0, the register and the data each with an acknowledge clock, then STOP, leaving the bus idle |
| Mpu6050Soft.SelectDecodes | stm32/learning/lesson_10-1/src/MPU6050.c:34-38 | ReadReg's write phase decodes as START, 0xD0 and the register, each acknowledged, with no STOP |
| Mpu6050Soft.FetchDecodes | stm32/learning/lesson_10-1/src/MPU6050.c:40-45 | ReadReg's read phase decodes as a repeated START, 0xD1, eight released data clocks, the NACK clock and STOP |
| Mpu6050Soft.ReleasedByte | stm32/learning/lesson_10-1/src/MPU6050.c:43-44 | on the master's side the received byte and the NACK show as the byte 0xFF with SDA released on the ninth clock |
| Mpu6050Soft.ReadRegDecodes | stm32/learning/lesson_10-1/src/MPU6050.c:30-48 | the whole ReadReg waveform decodes as the write phase followed by the read phase, ending with the bus idle |
| Mpu6050Soft.FramesByteAck | stm32/learning/lesson_10-1/src/MPU6050.c:16-17 | a sent byte with its acknowledge clock groups into one byte token |
| Mpu6050Soft.WriteRegFramesThen | stm32/learning/lesson_10-1/src/MPU6050.c:13-23 | WriteReg's symbols group into the five tokens START, 0xD0, register, data, STOP, whatever follows them |
| Mpu6050Soft.WriteRegOnWire | stm32/learning/lesson_10-1/src/MPU6050.c:13-23 | from an idle bus, WriteReg puts exactly START, [0xD0, RegAddress, Data] each with one acknowledge slot, then STOP on the wire (address byte with R/W = 0, UM10204 section 3.1.10) |
| Mpu6050Soft.ReadRegOnWire | stm32/learning/lesson_10-1/src/MPU6050.c:30-48 | from an idle bus, ReadReg puts exactly START, 0xD0, RegAddress, a repeated START with no STOP before it, 0xD1 (R/W = 1), one received byte with the master's NACK (SDA released), then STOP on the wire |
| Mpu6050Soft.FramesRead | stm32/learning/lesson_10-1/src/MPU6050.c:34-45 | the symbols of a register read group into START, two bytes, START, two bytes, STOP |
| Mpu6050Soft.FramesTwoBytes | stm32/learning/lesson_10-1/src/MPU6050.c:34-38 | a START and two acknowledged bytes group into three tokens ahead of the rest |
| Mpu6050Soft.WritesDecode | stm32/learning/lesson_10-1/src/MPU6050.c:55-66 | consecutive WriteReg calls from an idle bus decode as their symbol sequences one after another |
| Mpu6050Soft.WritesFrames | stm32/learning/lesson_10-1/src/MPU6050.c:55-66 | consecutive WriteReg symbol sequences group into one complete WriteReg frame per register/value pair |
| Mpu6050Soft.InitOnWire | stm32/learning/lesson_10-1/src/MPU6050.c:55-66 | after MyI2C_Init, MPU6050_Init puts exactly six WriteReg frames on the wire: (0x6B, 0x01), (0x6C, 0x00), (0x19, 0x09), (0x1A, 0x06), (0x1B, 0x18), (0x1C, 0x18), in that order |
| Mpu6050Soft.InitWavesUnfold | stm32/learning/lesson_10-1/src/MPU6050.c:60-65 | the write sequence of InitWrites is the six WriteReg waveforms of Init's body in order |
| Mpu6050Soft.SendByteAck | stm32/learning/lesson_10-1/src/MPU6050.c:16-17 | SendByte then ReceiveAck: the byte's clocks and one acknowledge clock with SDA released; the acknowledge level is read from the slave and ignored |
| Mpu6050Soft.WriteReg | stm32/learning/lesson_10-1/src/MPU6050.c:13-23 | MPU6050_WriteReg appends exactly WriteReg's waveform, consumes the slave's three acknowledge levels without checking them, and always ends with the bus idle |
| Mpu6050Soft.SelectRegister | stm32/learning/lesson_10-1/src/MPU6050.c:34-38 | ReadReg's write phase appends START, 0xD0 and the register with their acknowledge clocks and leaves SCL low, with no STOP |
| Mpu6050Soft.FetchRegister | stm32/learning/lesson_10-1/src/MPU6050.c:40-47 | ReadReg's read phase appends the repeated START, 0xD1, eight read clocks, the NACK and STOP, and returns the byte the slave drove after its acknowledge |
| Mpu6050Soft.ReadReg | stm32/learning/lesson_10-1/src/MPU6050.c:30-48 | MPU6050_ReadReg appends exactly ReadReg's waveform, consumes eleven slave levels and returns the byte the slave drove in the data phase, whatever the acknowledges were |
| Mpu6050Soft.Init | stm32/learning/lesson_10-1/src/MPU6050.c:55-66 | MPU6050_Init releases both lines and then appends the six configuration writes in order, leaving the bus idle |
| Mpu6050Soft.GetId | stm32/learning/lesson_10-1/src/MPU6050.c:73-76 | MPU6050_GetID is a ReadReg of WHO_AM_I (0x75) and returns its byte |
| Mpu6050Soft.GetIdOfDevice | stm32/learning/lesson_10-1/src/MPU6050.c:73-76 | a device that drives its documented identity 0x68 in the data phase is read as 0x68 |
| Mpu6050Soft.AxisSampleOfDevice | stm32/learning/lesson_10-1/src/MPU6050.c:90-92 | a device that drives h and then l in the two data phases of an axis is read as the int16 combination of h and l |
| Mpu6050Soft.ReadAxis | stm32/learning/lesson_10-1/src/MPU6050.c:90-92 | one axis: ReadReg of the high register, ReadReg of the low register, high byte first, combined as int16 |
| Mpu6050Soft.GetData | stm32/learning/lesson_10-1/src/MPU6050.c:85-113 | MPU6050_GetData reads the twelve registers in the order ACCEL X, Y, Z then GYRO X, Y, Z, high before low, and each result is the int16 combination of the bytes of its two reads |
| Mpu6050Hw.Failures | stm32/learning/lesson_10-2/src/MPU6050.c:18 | the number of failed polls before the first SUCCESS never exceeds the answers available |
| Mpu6050Hw.FailuresHead | stm32/learning/lesson_10-2/src/MPU6050.c:18-22 | the i-th poll fails exactly while i is below the number of failures, so the first success ends the run of failures |
| Mpu6050Hw.PollsBound | stm32/learning/lesson_10-2/src/MPU6050.c:14-23 | MPU6050_WaitEvent polls at least once and at most 10000 times; fewer than 10000 polls means the last one succeeded, 10000 means the first 9999 all failed |
| Mpu6050Hw.AfterWaitsAdd | stm32/learning/lesson_10-2/src/MPU6050.c:14-23 | m waits followed by n waits consume the answers of m + n waits |
| Mpu6050Hw.ReadRegAsBitBanged | stm32/learning/lesson_10-2/src/MPU6050.c:67-99 | a hardware register read puts on the wire exactly the frames of the bit-banged ReadReg: START, 0xD0, register, repeated START, 0xD1, one NACKed byte, STOP |
| Mpu6050Hw.I2C.constructor | stm32/learning/lesson_10-2/src/MPU6050.c:121-130 | I2C_Init with I2C_Ack_Enable followed by I2C_Cmd leaves a ready peripheral with ACK enabled and nothing sent |
| Mpu6050Hw.I2C.Apply | stm32/learning/lesson_10-2/src/MPU6050.c:38-50 | a request is logged in order and puts its condition or byte on the wire according to the peripheral's mode; a STOP requested while receiving waits for the byte in progress |
| Mpu6050Hw.I2C.CheckEvent | stm32/learning/lesson_10-2/src/MPU6050.c:18 | one I2C_CheckEvent poll gives the next answer and consumes it |
| Mpu6050Hw.I2C.ReceiveData | stm32/learning/lesson_10-2/src/MPU6050.c:94 | I2C_ReceiveData returns the next byte of the data register; the byte is answered on the wire with NACK when ACK is disabled, followed by a pending STOP |
| Mpu6050Hw.WaitEvent | stm32/learning/lesson_10-2/src/MPU6050.c:14-23 | MPU6050_WaitEvent consumes exactly the polls up to the first success or the 10000th failure, and returns without reporting an error either way |
| Mpu6050Hw.Step | stm32/learning/lesson_10-2/src/MPU6050.c:38-39 | a request followed by the wait for its event, consuming the answers of one wait |
| Mpu6050Hw.WriteReg | stm32/learning/lesson_10-2/src/MPU6050.c:36-51 | MPU6050_WriteReg issues START, EV5, the address for transmission, EV6, the register, EV8, the data, EV8_2, STOP in that order, and puts on the wire the same five frames as the bit-banged WriteReg |
| Mpu6050Hw.SelectRegister | stm32/learning/lesson_10-2/src/MPU6050.c:72-79 | ReadReg's write phase ends with the wait for BYTE_TRANSMITTED after the register and sends no STOP |
| Mpu6050Hw.FetchRegister | stm32/learning/lesson_10-2/src/MPU6050.c:82-96 | the read phase repeats START, selects the receiver direction (0xD1), disables ACK and requests STOP before waiting for EV7, then reads the data register and re-enables ACK |
| Mpu6050Hw.ReadReg | stm32/learning/lesson_10-2/src/MPU6050.c:67-99 | MPU6050_ReadReg performs the write phase and the read phase in order and returns the data register's byte with ACK enabled again |
| Mpu6050Hw.Init | stm32/learning/lesson_10-2/src/MPU6050.c:133-138 | MPU6050_Init performs the six configuration writes (0x6B, 0x01), (0x6C, 0x00), (0x19, 0x09), (0x1A, 0x06), (0x1B, 0x18), (0x1C, 0x18) in order |
| Mpu6050Hw.InitAsBitBanged | stm32/learning/lesson_10-2/src/MPU6050.c:133-138 | both drivers' Init put the same register-write frames on the wire in the same order |
| Mpu6050Hw.GetId | stm32/learning/lesson_10-2/src/MPU6050.c:141-144 | MPU6050_GetID is a ReadReg of WHO_AM_I |
| Mpu6050Hw.ByteInDrop | stm32/learning/lesson_10-2/src/MPU6050.c:94 | after a bytes have been read, the i-th next byte is byte a + i of the data register's sequence |
| Mpu6050Hw.ReadAxis | stm32/learning/lesson_10-2/src/MPU6050.c:151-153 | one axis: two ReadReg calls, high register first, combined as int16 |
| Mpu6050Hw.GetData | stm32/learning/lesson_10-2/src/MPU6050.c:146-174 | MPU6050_GetData reads the same twelve registers in the same order as the bit-banged version, and each axis is the int16 combination of its high and low byte |
| SerialRing.SlotDistinct | stm32/projects/course_capstone/src/Serial.c:16-32 | the slots of the at most 256 bytes held, counted from the tail modulo 256, are pairwise different |
| SerialRing.SlotNext | stm32/projects/course_capstone/src/Serial.c:32 | after the tail advances by one (mod 256) the held bytes are the same slots shifted by one |
| SerialRing.AssembleBounds | stm32/projects/course_capstone/src/Serial.c:127-134 | the line being assembled never exceeds 127 bytes, and the bytes left in the ring are a suffix of what was there |
| SerialRing.AssembleNoNewline | stm32/projects/course_capstone/src/Serial.c:108-136 | without a '\n' the ring is drained and no line is produced; the partial line is kept |
| SerialRing.AssembleLine | stm32/projects/course_capstone/src/Serial.c:112-125 | a line that fits arrives intact: the bytes before the first '\n' without their '\r's are appended, and the bytes after the '\n' stay in the ring |
| SerialRing.Strip | stm32/projects/course_capstone/src/Serial.c:114-117 | removing the carriage returns leaves no '\r' and never lengthens the input |
| SerialRing.Overflow | stm32/projects/course_capstone/src/Serial.c:127-134 | a non-terminator byte that arrives while 127 bytes are held discards the partial line and is itself dropped |
| SerialRing.CopyOut | stm32/projects/course_capstone/src/Serial.c:120-122 | strncpy into out_size bytes followed by `out[out_size - 1] = '\0'` fills exactly out_size bytes |
| SerialRing.CopyOutLine | stm32/projects/course_capstone/src/Serial.c:120-122 | the copy is NUL-terminated within out_size and holds the line's first out_size - 1 bytes |
| SerialRing.SerialRx.constructor | stm32/projects/course_capstone/src/Serial.c:10-12 | the ring starts empty (head = tail = 0) and the partial line empty |
| SerialRing.SerialRx.Push | stm32/projects/course_capstone/src/Serial.c:14-23 | Serial_RxPush drops the byte when head + 1 = tail (mod 256), so at most 255 bytes are held; otherwise the byte joins the back of the queue; the tail and the line are untouched |
| SerialRing.SerialRx.Pop | stm32/projects/course_capstone/src/Serial.c:25-34 | Serial_RxPop on an empty ring returns 0 and changes nothing; otherwise it returns 1 with the oldest byte and removes it, so bytes come out in push order |
| SerialRing.SerialRx.Interrupt | stm32/projects/course_capstone/src/Serial.c:139-147 | with RXNE set the received byte is pushed, subject to the full-ring drop; without it nothing changes |
| SerialRing.SerialRx.Deliver | stm32/projects/course_capstone/src/Serial.c:118-125 | the '\n' branch copies the NUL-terminated partial line into out (strncpy semantics) and clears the line |
| SerialRing.SerialRx.Accept | stm32/projects/course_capstone/src/Serial.c:127-134 | a byte is appended while the line holds fewer than 127 bytes; at 127 the line is discarded |
| SerialRing.SerialRx.ReadLine | stm32/projects/course_capstone/src/Serial.c:106-137 | Serial_ReadLine follows the reference Assemble on the partial line and the ring: on '\n' it returns 1 with the line copied out and the later bytes left in the ring; when the ring drains it returns 0, keeps the partial line and leaves out untouched |
| SerialMailbox.Mailbox.constructor | stm32/learning/lesson_9-2/src/Serial.c:10-16 | Serial_RxData and Serial_RxFlag start at 0, as C statics do |
| SerialMailbox.Mailbox.Interrupt | stm32/learning/lesson_9-2/src/Serial.c:251-276 | a receive interrupt (RXNE set) overwrites the single-byte cache with the byte and sets the flag to 1; without RXNE nothing changes |
| SerialMailbox.Mailbox.GetRxFlag | stm32/learning/lesson_9-2/src/Serial.c:202-221 | Serial_GetRxFlag returns 1 and clears the flag when it is 1, otherwise returns 0 and leaves it; the cached byte is untouched |
| SerialMailbox.Mailbox.GetRxData | stm32/learning/lesson_9-2/src/Serial.c:228-241 | Serial_GetRxData returns the latest byte and does not touch the flag |
| SerialMailbox.ReportedOnce | stm32/learning/lesson_9-2/src/Serial.c:210-220 | a reception is reported once: a second GetRxFlag with no new byte returns 0, and the first returns 1 exactly when a byte was waiting |
| SerialMailbox.LatestWins | stm32/learning/lesson_9-2/src/Serial.c:271-276 | two receptions before the main loop looks give one report, and only the second byte survives in the cache |
| SerialTx.Power | stm32/learning/lesson_9-1/src/Serial.c:134-142 | the reference power over unbounded integers, positive for a positive base |
| SerialTx.Pow | stm32/learning/lesson_9-1/src/Serial.c:134-142 | Serial_Pow(X, Y) multiplies Y copies of X in uint32_t: the result is X^Y mod 2^32, and 1 for Y = 0 |
| SerialTx.PowerTenFits | stm32/learning/lesson_9-1/src/Serial.c:147-177 | the powers of ten Serial_SendNumber asks for with Length up to 10 are at most 10^9 and fit in uint32_t, so Serial_Pow computes them exactly |
| SerialTx.DigitChar | stm32/learning/lesson_9-1/src/Serial.c:177 | `d + '0'` is an ASCII digit in '0'..'9' that denotes d |
| SerialTx.Decimal | stm32/learning/lesson_9-1/src/Serial.c:150-179 | the emitted string has exactly Length bytes, every one of them in '0'..'9' |
| SerialTx.DecimalValue | stm32/learning/lesson_9-1/src/Serial.c:153-178 | reading the emitted digits back as a decimal number gives Number mod 10^Length: the Length lowest digits, most significant first, zero-padded |
| SerialTx.DecimalExact | stm32/learning/lesson_9-1/src/Serial.c:153-178 | when Number has at most Length digits, the emitted digits denote Number itself |
| SerialTx.ModTen | stm32/learning/lesson_9-1/src/Serial.c:177 | peeling off the last decimal digit of n mod 10 p |
| SerialTx.DecimalAt | stm32/learning/lesson_9-1/src/Serial.c:177 | byte i of the string is `Number / 10^(Length - i - 1) % 10 + '0'`, the byte the loop sends in pass i |
| SerialTx.DecimalExample | stm32/learning/lesson_9-1/src/Serial.c:156-172 | Number 123 with Length 3 gives "123" |
| SerialTx.Usart.constructor | stm32/learning/lesson_9-1/src/Serial.c:79-99 | nothing has been sent yet |
| SerialTx.Usart.SendByte | stm32/learning/lesson_9-1/src/Serial.c:79-99 | Serial_SendByte appends exactly one byte to what has been sent |
| SerialTx.Usart.SendArray | stm32/learning/lesson_9-1/src/Serial.c:107-114 | Serial_SendArray sends Array[0 .. Length) in order |
| SerialTx.Usart.SendString | stm32/learning/lesson_9-1/src/Serial.c:121-128 | Serial_SendString sends the bytes before the first NUL, which its uint8_t index requires within the first 256 bytes |
| SerialTx.Usart.SendCapstoneString | stm32/projects/course_capstone/src/Serial.c:81-87 | the capstone's Serial_SendString sends the bytes before the first NUL, with no length limit |
| SerialTx.Usart.SendNumber | stm32/learning/lesson_9-1/src/Serial.c:150-179 | Serial_SendNumber sends exactly the Length-digit decimal string of Number (documented range Length 0 .. 10) |
| SerialTx.Usart.PutChar | stm32/learning/lesson_9-1/src/Serial.c:186-203 | fputc sends the low byte of ch and returns ch |
| DataLogger.Pattern | stm32/projects/course_capstone/src/main_data_logger.c:61-62 | the 16-bit pattern of an int16_t value lies in 0 .. 65535 (the bytes shifted out of a negative value are those of its two's-complement pattern) |
| DataLogger.Signed | stm32/projects/course_capstone/src/main_data_logger.c:102-107 | the (int16_t) cast of a 16-bit pattern lies in -32768 .. 32767 |
| DataLogger.Encode | stm32/projects/course_capstone/src/main_data_logger.c:43-69 | the record buffer is 32 bytes, starts with the magic CA FE and ends with two zero bytes the memset leaves |
| DataLogger.HeaderBytes | stm32/projects/course_capstone/src/main_data_logger.c:45-56 | the first ten bytes are the magic, then seq and timestamp low byte first |
| DataLogger.Word32 | stm32/projects/course_capstone/src/main_data_logger.c:100-101 | reassembling four little-endian bytes gives a uint32_t value |
| DataLogger.Word16 | stm32/projects/course_capstone/src/main_data_logger.c:102-112 | reassembling two little-endian bytes gives a uint16_t value |
| DataLogger.Decode | stm32/projects/course_capstone/src/main_data_logger.c:100-112 | the fields log_dump reassembles form a well-formed record (uint32_t seq and ts, six int16_t, four uint16_t) |
| DataLogger.DecodeEncode | stm32/projects/course_capstone/src/main_data_logger.c:43-69 | decoding the bytes log_write_one programs gives back every field of the record exactly |
| DataLogger.HeaderDecodes | stm32/projects/course_capstone/src/main_data_logger.c:47-56 | seq and timestamp survive the little-endian round trip |
| DataLogger.MotionDecodes | stm32/projects/course_capstone/src/main_data_logger.c:58-63 | each of the six signed motion values survives the round trip, negative ones included |
| DataLogger.AdcDecodes | stm32/projects/course_capstone/src/main_data_logger.c:65-69 | each of the four ADC values survives the round trip |
| DataLogger.EncodeDecode | stm32/projects/course_capstone/src/main_data_logger.c:97-112 | a 32-byte block with the CA FE header and a zero tail is exactly the encoding of what it decodes to |
| DataLogger.HeaderEncodes | stm32/projects/course_capstone/src/main_data_logger.c:100-101 | re-encoding a decoded seq or timestamp gives back header bytes 2 .. 9 |
| DataLogger.BodyEncodes | stm32/projects/course_capstone/src/main_data_logger.c:102-112 | re-encoding the decoded motion and ADC values gives back bytes 10 .. 29 |
| DataLogger.PairBytes | stm32/projects/course_capstone/src/main_data_logger.c:59-69 | value i of the motion block sits at bytes 10 + 2i and 11 + 2i, and of the ADC block at 22 + 2i and 23 + 2i, low byte first |
| DataLogger.Slot | stm32/projects/course_capstone/src/main_data_logger.c:95-96 | reading a slot gives 32 bytes: the programmed record, or 0xFF throughout when erased |
| DataLogger.Erased | stm32/projects/course_capstone/src/main_data_logger.c:27-35 | an erased block reads 0xFF in each of its 32 bytes |
| DataLogger.And | stm32/projects/course_capstone/src/main_data_logger.c:71-72 | a page program can only clear bits: over an erased byte it leaves the programmed byte, and programming the byte already there keeps it |
| DataLogger.Program | stm32/projects/course_capstone/src/main_data_logger.c:71-72 | W25Q64_PageProgram leaves each of the 32 bytes as the old cell AND the new byte |
| DataLogger.ProgramErased | stm32/projects/course_capstone/src/main_data_logger.c:71-72 | programming a record over an erased block stores exactly the record |
| DataLogger.Written | stm32/projects/course_capstone/src/main_data_logger.c:71-72 | after programming slot i the slot holds its old bytes AND the record, which is the record when it was erased; every other slot is as it was |
| DataLogger.StaleSlotCorrupts | stm32/projects/course_capstone/src/main_data_logger.c:71-79 | record 1024 programmed over record 0 in the same slot without an erase leaves record 0's bytes, so the dump shows record 0 again and not record 1024 |
| DataLogger.WithoutSector | stm32/projects/course_capstone/src/main_data_logger.c:29-32 | erasing sector s erases its 128 slots and keeps every other slot |
| DataLogger.ErasingWrite | stm32/projects/course_capstone/src/main_data_logger.c:71-79 | erasing the sector when the write enters it and then programming puts exactly the record in the slot, leaves the rest of the sector erased for the next write, and keeps the other sectors |
| DataLogger.NextSeq | stm32/projects/course_capstone/src/main_data_logger.c:73 | s_seq++ on a uint32_t: one more, and 0 after 2^32 - 1 |
| DataLogger.NextWr | stm32/projects/course_capstone/src/main_data_logger.c:74-80 | s_wr moves one record on, stays a multiple of 32 below the 32 KiB capacity, and is 0 exactly after the last slot |
| DataLogger.DumpErased | stm32/projects/course_capstone/src/main_data_logger.c:97-98 | an erased region dumps no record, as no slot carries the header |
| DataLogger.Programmed | stm32/projects/course_capstone/src/main_data_logger.c:71-72 | programming records 0, 1, ... into the slots of an erased region fills exactly those slots with their encodings |
| DataLogger.DumpLogged | stm32/projects/course_capstone/src/main_data_logger.c:83-128 | records programmed one after another from an erased region are dumped back in the order they were written |
| DataLogger.DumpCount | stm32/projects/course_capstone/src/main_data_logger.c:152-154 | the count of "dump<arg>" is (uint32_t)atoi(arg), never 0 because 0 becomes 64 |
| DataLogger.DumpCountDefault | stm32/projects/course_capstone/src/main_data_logger.c:152-154 | "dump" with no argument or with 0 asks for 64 records, "dump 128" for 128 |
| DataLogger.Parse | stm32/projects/course_capstone/src/main_data_logger.c:130-165 | a dump command always carries a count in 1 .. 2^32 - 1 |
| DataLogger.ParseDump | stm32/projects/course_capstone/src/main_data_logger.c:150-156 | "dump" parses to a dump of 64 records and "dump 128" to a dump of 128 |
| DataLogger.Logger.constructor | stm32/projects/course_capstone/src/main_data_logger.c:23-25 | at power-up s_wr, s_seq and s_running are zero while the flash keeps what was programmed before |
| DataLogger.Logger.EraseAll | stm32/projects/course_capstone/src/main_data_logger.c:27-35 | after log_erase_all every slot of the eight sectors is erased and s_wr and s_seq are 0 |
| DataLogger.Logger.BuildRecord | stm32/projects/course_capstone/src/main_data_logger.c:43-69 | the buffer log_write_one fills is exactly Encode of the record |
| DataLogger.Logger.FillMotion | stm32/projects/course_capstone/src/main_data_logger.c:58-63 | the motion loop fills bytes 10 .. 21 with the six values and leaves the header and the zero tail |
| DataLogger.Logger.FillAdc | stm32/projects/course_capstone/src/main_data_logger.c:65-69 | the ADC loop fills bytes 22 .. 29, completing the encoded record |
| DataLogger.Logger.WriteOne | stm32/projects/course_capstone/src/main_data_logger.c:37-81 | the record with the current seq is programmed over slot s_wr / 32 as AND, with no erase, and lands exactly only when the slot was erased; no other slot changes; s_seq and s_wr advance as NextSeq and NextWr say |
| DataLogger.Logger.Append | stm32/projects/course_capstone/src/main_data_logger.c:71-80 | the page program at s_wr followed by the s_seq and s_wr updates |
| DataLogger.Logger.WriteOneErasing | stm32/projects/course_capstone/src/main_data_logger.c:71-79 | the corrected write, which erases the sector it enters: the slot then holds exactly the record and decodes to it, the slots ahead in the sector stay erased, the other sectors are kept |
| DataLogger.Logger.Dump | stm32/projects/course_capstone/src/main_data_logger.c:83-128 | log_dump prints the decoded records of slots 0 .. min(n, 1024) - 1 that carry the header, in slot order |
| DataLogger.Logger.Command | stm32/projects/course_capstone/src/main_data_logger.c:130-165 | each command does what cmd does: start and stop set s_running, clear erases, dump lists min(n, 1024) slots, status reports the state, anything else prints the usage; only clear touches the flash |
| DataLogger.Logger.Tick | stm32/projects/course_capstone/src/main_data_logger.c:196-202 | while running the tick counter advances modulo 2^32 and every tick that is a multiple of 20 writes one record as log_write_one does (AND over the slot); other ticks and a stopped logger leave the flash, s_seq and s_wr alone |
| DataLogger.WritesCount | stm32/projects/course_capstone/src/main_data_logger.c:198-200 | from tick 0, n ticks write ceil(n / 20) records |
| CText.ClampLong | stm32/projects/course_capstone/src/main_data_logger.c:152 | a 32-bit long saturates: the value is kept when it fits and lands in LONG_MIN .. LONG_MAX otherwise |
| CText.Strtol | stm32/projects/course_capstone/src/main_data_logger.c:152 | the decimal conversion under atoi yields a 32-bit long and never consumes more than its input |
| CText.Atoi | stm32/projects/course_capstone/src/main_data_logger.c:152 | atoi of a command argument is a value of the target's 32-bit int |
| CText.StrtolDigits | stm32/projects/course_capstone/src/main_bluetooth_car.c:44 | an argument that starts with a digit converts to its digit run, clamped, and the conversion stops right after the run |
| CText.StrtolNone | stm32/projects/course_capstone/src/main_bluetooth_car.c:44 | an argument with no white space, sign or digit at its head converts to 0 |
| CText.AtoiExamples | stm32/projects/course_capstone/src/main_data_logger.c:152 | atoi(" 128") is 128, and atoi(" 0"), atoi("") and atoi("x") are 0 |
| CText.AtoiSigned | stm32/projects/course_capstone/src/main_bluetooth_car.c:44 | atoi("-1") is -1 and atoi("+7") is 7 |
| FlashStore.JoinSplit | stm32/projects/course_capstone/src/main_habit_tracker.c:25-30 | a 32-bit day base stored as its low and high halves in words 30 and 31 reads back as the same value |
| FlashStore.SplitJoin | stm32/projects/course_capstone/src/main_habit_tracker.c:25 | two stored halves joined into a uint32_t and split again give the same halves |
| FlashStore.Store.constructor | stm32/projects/course_capstone/src/main_habit_tracker.c:62 | Store_Init loads the page, so the working copy equals the stored image |
| FlashStore.Store.Save | stm32/projects/course_capstone/src/main_habit_tracker.c:31 | after Store_Save the persisted page equals the working copy |
| HabitTracker.Day | stm32/projects/course_capstone/src/main_habit_tracker.c:18-21 | get_day is the whole number of days in the RTC seconds: d days are at most the seconds and d + 1 days exceed them |
| HabitTracker.Shifted | stm32/projects/course_capstone/src/main_habit_tracker.c:42-50 | after k days the count of slot i is the count of slot i + k, or 0 for a day that has not been counted yet |
| HabitTracker.ShiftedStep | stm32/projects/course_capstone/src/main_habit_tracker.c:44-48 | one pass of the outer loop, one day, extends a shift of k days to k + 1 |
| HabitTracker.ShiftedCompose | stm32/projects/course_capstone/src/main_habit_tracker.c:42-50 | sliding by a days and then by b days equals sliding by a + b days |
| HabitTracker.ShiftedWeek | stm32/projects/course_capstone/src/main_habit_tracker.c:39-40 | a gap of seven days or more leaves an all-zero window |
| HabitTracker.Rotated | stm32/projects/course_capstone/src/main_habit_tracker.c:23-55 | an unset base (0) becomes the new day with the window kept; a day not after the base leaves the page as it is; otherwise the base advances by min(gap, 7) and the window is shifted by as many days; all other words of the page are kept |
| HabitTracker.Sensed | stm32/projects/course_capstone/src/main_habit_tracker.c:84-91 | an unchanged reading leaves the page as it is; a changed one adds (c - last) mod 2^16 to word 38 modulo 2^16 and keeps every other word |
| HabitTracker.Keyed | stm32/projects/course_capstone/src/main_habit_tracker.c:93-109 | key 2 adds one to word 38 modulo 2^16 with all else kept; key 1 makes the seven day words 0 with all else kept; any other key leaves the page as it is |
| HabitTracker.Tracker.constructor | stm32/projects/course_capstone/src/main_habit_tracker.c:70-72 | main starts with no pulse counted, the remembered day the current RTC day, the page equal to Rotated(old page, day) and saved exactly when that rotation writes it |
| HabitTracker.Tracker.RotateDays | stm32/projects/course_capstone/src/main_habit_tracker.c:23-55 | the page becomes Rotated(old page, new day) and is saved exactly when the base was unset or the new day is after it; otherwise the saved image is untouched |
| HabitTracker.Tracker.ShiftOnce | stm32/projects/course_capstone/src/main_habit_tracker.c:44-48 | words 33 .. 38 move down one place, word 38 becomes 0 and nothing outside the window changes |
| HabitTracker.Tracker.Sense | stm32/projects/course_capstone/src/main_habit_tracker.c:84-91 | the page becomes Sensed(old page, last reading, c), the remembered reading becomes c and the page is saved exactly when the reading changed |
| HabitTracker.Tracker.Key | stm32/projects/course_capstone/src/main_habit_tracker.c:93-109 | the page becomes Keyed(old page, k) and is saved exactly for keys 1 and 2 |
| HabitTracker.Tracker.Step | stm32/projects/course_capstone/src/main_habit_tracker.c:74-109 | after a pass the remembered day and reading are the current ones; the page is Keyed(Sensed(r, last reading, c), k) where r is the page rotated to the new day when the day changed and the old page otherwise; the page is saved exactly when one of the three writes it |
| HabitTracker.SensorKeepsOffset | stm32/projects/course_capstone/src/main_habit_tracker.c:87-89 | today's count minus the sensor reading stays the same modulo 2^16 after a sensor update, so no pulse is lost or counted twice across a wrap |
| Pomodoro.NextPreset | stm32/projects/course_capstone/src/main_pomodoro.c:127-141 | a key-2 preset is always one of 50/10, 15/3 and 25/5, and always a pair load_settings would accept |
| Pomodoro.PresetsCycle | stm32/projects/course_capstone/src/main_pomodoro.c:127-141 | from any preset, three presses come back to the same work length |
| Pomodoro.PresetsRestart | stm32/projects/course_capstone/src/main_pomodoro.c:137-141 | a work length other than 25 or 50 goes to the 25/5 preset |
| Pomodoro.Deadline | stm32/projects/course_capstone/src/main_pomodoro.c:72-82 | now + minutes * 60 in uint32_t: exactly that many seconds ahead when it fits, wrapped otherwise |
| Pomodoro.Clock | stm32/projects/course_capstone/src/main_pomodoro.c:64-65 | the mm:ss split recombines to the seconds left, with seconds below 60 |
| Pomodoro.ClockExact | stm32/projects/course_capstone/src/main_pomodoro.c:64-65 | minutes and seconds below 60 come back unchanged from their total |
| Pomodoro.Left | stm32/projects/course_capstone/src/main_pomodoro.c:54-62 | the time left of a register value: 0 when idle, the frozen value when paused, the distance to a deadline still ahead and 0 once it has passed |
| Pomodoro.Pressed | stm32/projects/course_capstone/src/main_pomodoro.c:102-153 | key 1 starts work from idle with a deadline work_min minutes ahead, pauses a running phase with the same time left, and resumes a pause with its time left again when the deadline fits; key 2 steps the presets when idle and otherwise resets to idle with nothing left; only the idle preset step changes the lengths and other keys change nothing; the timer invariant is kept |
| Pomodoro.Expired | stm32/projects/course_capstone/src/main_pomodoro.c:155-170 | a WORK phase at or past its deadline becomes BREAK with a deadline break_min minutes ahead, a BREAK phase becomes IDLE, and a phase with time left or an idle or paused timer is kept; lengths never change and the invariant is kept |
| Pomodoro.PauseSurvivesExpiry | stm32/projects/course_capstone/src/main_pomodoro.c:109-114 | a pause made by key 1 is not ended by the expiry check later in the same pass |
| Pomodoro.Timer.Remaining | stm32/projects/course_capstone/src/main_pomodoro.c:54-62 | the time left is 0 when idle, the frozen value when paused, and the distance to the deadline (0 once passed) while running |
| Pomodoro.Timer.constructor | stm32/projects/course_capstone/src/main_pomodoro.c:19-24 | the timer starts idle with the stored lengths when they are in range and the defaults 25 and 5 otherwise |
| Pomodoro.Timer.LoadSettings | stm32/projects/course_capstone/src/main_pomodoro.c:26-32 | each stored length is taken only when it is in range (work 5 .. 120, break 1 .. 60); otherwise the current value is kept |
| Pomodoro.Timer.SaveSettings | stm32/projects/course_capstone/src/main_pomodoro.c:34-39 | words 10 and 11 get the two lengths, nothing else changes, and the page is saved |
| Pomodoro.Timer.Press | stm32/projects/course_capstone/src/main_pomodoro.c:102-153 | key 1 starts work from idle, pauses a running phase keeping its remaining time, and resumes a paused one that far ahead; key 2 steps and saves the presets when idle and resets to idle otherwise; other keys change nothing; the lengths stay valid; the registers become Pressed(old registers, key, now) and the page is untouched unless key 2 is pressed while idle |
| Pomodoro.Timer.StartWork | stm32/projects/course_capstone/src/main_pomodoro.c:72-76 | WORK with its deadline work_min minutes ahead |
| Pomodoro.Timer.StartBreak | stm32/projects/course_capstone/src/main_pomodoro.c:78-82 | BREAK with its deadline break_min minutes ahead |
| Pomodoro.Timer.Expire | stm32/projects/course_capstone/src/main_pomodoro.c:155-170 | a running phase whose deadline has come ends, WORK into BREAK with a fresh deadline and BREAK into IDLE; anything else is kept; the registers become Expired(old registers, now) |
| Pomodoro.Timer.Step | stm32/projects/course_capstone/src/main_pomodoro.c:98-170 | a main-loop pass leaves the registers at Expired(Pressed(old registers, key, now), now) with the invariant kept; the page changes and is saved only when key 2 steps the presets of an idle timer, and then only in words 10 and 11 |
| Pomodoro.PauseThenResume | stm32/projects/course_capstone/src/main_pomodoro.c:109-120 | pausing and later resuming shows the same time left right after the resume and returns to the same phase |
| CInt.CDiv | stm32/projects/course_capstone/src/main_bluetooth_car.c:61 | C integer division truncates toward zero: the quotient has size \|a\| / \|b\| and, when not 0, is negative exactly when a and b have opposite signs; for a non-negative dividend and positive divisor it is the ordinary quotient |
| BluetoothCar.SkipBlanks | stm32/projects/course_capstone/src/main_bluetooth_car.c:27-28 | what is left after the leading spaces does not start with a space |
| BluetoothCar.Strip | stm32/projects/course_capstone/src/main_bluetooth_car.c:27-30 | stripping the spaces and one '@' never lengthens the line |
| BluetoothCar.Act | stm32/projects/course_capstone/src/main_bluetooth_car.c:32-84 | a command sets speeds that fit int16_t, as set_cmd's parameters truncate them; an empty command, and only that, is ignored |
| BluetoothCar.ActUnknown | stm32/projects/course_capstone/src/main_bluetooth_car.c:84 | a command that starts with none of S, F, B, L, R, V and is not "stop" is answered with ERR cmd |
| BluetoothCar.ActStop | stm32/projects/course_capstone/src/main_bluetooth_car.c:35-40 | S or a "stop" prefix stops both wheels and replies OK stop |
| BluetoothCar.ActTurn | stm32/projects/course_capstone/src/main_bluetooth_car.c:58-72 | a turn keeps the outer wheel at v and gives the inner wheel the C quotient v / 2: |v| / 2 in size with the sign of v, as C division does |
| BluetoothCar.StripExamples | stm32/projects/course_capstone/src/main_bluetooth_car.c:27-30 | "  @F 100" strips to "F 100", "@@S" loses only its first '@', and a line of spaces strips to empty |
| BluetoothCar.DoubleAtRejected | stm32/projects/course_capstone/src/main_bluetooth_car.c:29-30 | a second '@' is not stripped, so "@@S" is an unknown command |
| BluetoothCar.TurnTruncates | stm32/projects/course_capstone/src/main_bluetooth_car.c:58-64 | "L -5" drives the inner wheel at -2, C's truncation toward zero rather than the floor -3 |
| BluetoothCar.Car.constructor | stm32/projects/course_capstone/src/main_bluetooth_car.c:14-16 | the commanded speeds and the failsafe timer start at 0 |
| BluetoothCar.Car.SetCmd | stm32/projects/course_capstone/src/main_bluetooth_car.c:18-23 | set_cmd stores both speeds and restarts the failsafe timer |
| BluetoothCar.Car.Process | stm32/projects/course_capstone/src/main_bluetooth_car.c:25-85 | cmd_process does what Act says about the stripped line: an empty one changes nothing, a valid one sets the speeds, restarts the timer and sends its OK reply, anything else only sends ERR cmd |
| BluetoothCar.Car.Dispatch | stm32/projects/course_capstone/src/main_bluetooth_car.c:32-84 | the per-letter dispatch after stripping agrees with Act case by case |
| BluetoothCar.Car.Step | stm32/projects/course_capstone/src/main_bluetooth_car.c:111-143 | a received line restarts the timer (so it reads 10 after the pass); the motors get the commanded speeds unless 1000 ms have passed without a line, when they stop; with a line the speeds and the replies are exactly what Act(Strip(line)) says (new speeds and its reply, or the old speeds with ERR cmd, or nothing for an empty line); without a line the speeds and replies are kept |
| BluetoothCar.Silence | stm32/projects/course_capstone/src/main_bluetooth_car.c:120-128 | after a line the car keeps driving for 99 silent 10 ms passes and is stopped from the 100th on |
| SmartHomeGateway.IncrementCarry | stm32/projects/course_capstone/src/main_smart_home_gateway.c:43-46 | cnt++ on the joined counter carries from the low word into the high one and wraps from 0xFFFF:0xFFFF to 0:0 |
| SmartHomeGateway.Classify | stm32/projects/course_capstone/src/main_smart_home_gateway.c:56-80 | a request is status, save or clear exactly when the line equals that word with or without one leading '@' |
| SmartHomeGateway.ClassifyExamples | stm32/projects/course_capstone/src/main_smart_home_gateway.c:56-61 | matching is exact ("statusx" is an error), the '@' is optional and only one is dropped ("@@save" is an error) |
| SmartHomeGateway.Gateway.constructor | stm32/projects/course_capstone/src/main_smart_home_gateway.c:87 | the gateway starts with no reply sent, over the loaded page |
| SmartHomeGateway.Gateway.StoreLast | stm32/projects/course_capstone/src/main_smart_home_gateway.c:36-52 | the 32-bit save counter goes up by one modulo 2^32, the first min(n, 4) ADC values land in words 3 onward, no other word changes and the page is saved |
| SmartHomeGateway.Gateway.Process | stm32/projects/course_capstone/src/main_smart_home_gateway.c:54-81 | status reports the joined counter with no change; save bumps the 32-bit counter modulo 2^32, puts the first min(n, 4) ADC values in words 3 onward, keeps every other word and saves the page; clear replies OK clear, anything else replies ERR cmd with no change |
| GestureArm.SelStep | stm32/projects/course_capstone/src/main_gesture_arm.c:151-153 | a nonzero selection delta always moves, in its own direction, by \|d\| / 4 truncated, or by one notch when that is 0 |
| GestureArm.SelStepExamples | stm32/projects/course_capstone/src/main_gesture_arm.c:151-153 | deltas 1 and -1 move one notch, -7 moves back by one (truncation toward zero) and 8 moves by two |
| GestureArm.ClampAngle | stm32/projects/course_capstone/src/main_gesture_arm.c:34-43 | clamp_angles puts an angle in 0 .. 180 degrees and leaves one already there unchanged |
| GestureArm.Parse | stm32/projects/course_capstone/src/main_gesture_arm.c:77-80 | a line is ignored exactly when nothing but spaces is in it |
| GestureArm.ParseWord | stm32/projects/course_capstone/src/main_gesture_arm.c:79-121 | after the spaces, a command is empty exactly when nothing is left |
| GestureArm.ParseSaved | stm32/projects/course_capstone/src/main_gesture_arm.c:87-92 | prefixes decide: "  saved" is the save command |
| GestureArm.ParseSettings | stm32/projects/course_capstone/src/main_gesture_arm.c:106-111 | "settings" is a set whose three numbers strtol reads as 0 |
| GestureArm.ParseBlank | stm32/projects/course_capstone/src/main_gesture_arm.c:77-80 | a blank line is ignored, and "sav" is unknown |
| GestureArm.Arm.constructor | stm32/projects/course_capstone/src/main_gesture_arm.c:13-14 | at start the stored angles are taken when all three are at most 180 degrees, otherwise every joint is at 90 degrees; joint 1 is selected |
| GestureArm.Arm.LoadAngles | stm32/projects/course_capstone/src/main_gesture_arm.c:16-24 | angles_load replaces the angles by the stored tenths only when all three are at most 1800 |
| GestureArm.Arm.SaveAngles | stm32/projects/course_capstone/src/main_gesture_arm.c:26-32 | angles_save writes the three angles into words 1 .. 3, changes no other word and saves the page |
| GestureArm.Arm.Select | stm32/projects/course_capstone/src/main_gesture_arm.c:146-160 | a nonzero TIM3 delta moves the selection by SelStep modulo 3, always landing on joint 1, 2 or 3; a zero delta keeps it |
| GestureArm.Arm.SaveThenLoad | stm32/projects/course_capstone/src/main_gesture_arm.c:26-32 | saving then loading gives back the same angles |
| GestureArm.Arm.Process | stm32/projects/course_capstone/src/main_gesture_arm.c:75-122 | cmd_process does what Parse reads: help and status only reply, save stores the angles, load takes the stored ones when in range, set takes the three numbers clamped to 0 .. 180 degrees, anything else replies with the error, and a blank line does nothing |
| GestureArm.Arm.Dispatch | stm32/projects/course_capstone/src/main_gesture_arm.c:79-121 | the prefix dispatch after the spaces agrees with ParseWord case by case |
| SelfTest.NextTest | stm32/projects/course_capstone/src/main_self_test.c:207-211 | key 1 selects the next of the nine tests, and after the sensor test comes the OLED test again |
| SelfTest.PressesCycle | stm32/projects/course_capstone/src/main_self_test.c:209 | n presses of key 1 move the selection n places round the cycle of nine tests |
| SelfTest.EveryTestReached | stm32/projects/course_capstone/src/main_self_test.c:201-211 | every test is reached from the OLED test, and nine presses bring any selection back |
| SelfTest.MpuExamples | stm32/projects/course_capstone/src/main_self_test.c:110-117 | a WHO_AM_I of 0x68 passes the MPU test, while 0x00 and 0xFF (a missing device) fail |
| SelfTest.PatternByte | stm32/projects/course_capstone/src/main_self_test.c:156-157 | each byte of the flash test pattern 0xA5 ^ i is a uint8_t |
| SelfTest.PatternDistinct | stm32/projects/course_capstone/src/main_self_test.c:156-157 | the sixteen test bytes all have the high nibble 0xA and are pairwise different |
| SelfTest.PatternExamples | stm32/projects/course_capstone/src/main_self_test.c:157 | the pattern starts with 0xA5, has 0xA0 at index 5 and ends with 0xAA |
| SelfTest.Pattern | stm32/projects/course_capstone/src/main_self_test.c:154-157 | the programmed block is the sixteen pattern bytes in order |
| SelfTest.SumSnoc | stm32/projects/course_capstone/src/main_self_test.c:91-92 | the running sum after poll i is the sum before it plus that poll's delta |
| SelfTest.TestEncoder | stm32/projects/course_capstone/src/main_self_test.c:85-108 | the encoder test passes exactly when some poll among the first 200 leaves either running sum outside -10 .. 10, stopping at the first such poll; the int32_t sums never overflow |
| SelfTest.PollNonzero | stm32/projects/course_capstone/src/main_self_test.c:59-74 | the key and sensor tests pass exactly when some sample within the poll limit (200 or 300) is nonzero, stopping at the first one |
| SelfTest.TestW25q | stm32/projects/course_capstone/src/main_self_test.c:140-164 | the flash test fails without writing on an ID of 0xFF or 0x00, and otherwise writes the pattern and passes exactly when the read-back equals it |
| SelfTest.Tester.constructor | stm32/projects/course_capstone/src/main_self_test.c:201 | the OLED test is selected first and no result has been shown |
| SelfTest.Tester.Run | stm32/projects/course_capstone/src/main_self_test.c:214-234 | the verdict is the selected test's rule: keys, encoder, MPU, flash and sensor by their checks, the OLED, buzzer, ADC and RTC tests always pass |
| SelfTest.Tester.Step | stm32/projects/course_capstone/src/main_self_test.c:206-237 | key 1 selects the next test, key 2 appends the selected test's verdict, other keys change nothing |
| ExtiEncoder.StepA | stm32/learning/lesson_5-2/src/Encoder.c:106-131 | the line-0 handler moves the count by one exactly when A reads low: up with B high, down with B low |
| ExtiEncoder.StepB | stm32/learning/lesson_5-2/src/Encoder.c:143-168 | the line-1 handler moves the count by one exactly when B reads low: up with A low, down with A high |
| ExtiEncoder.DirectionRule | stm32/learning/lesson_5-2/src/Encoder.c:113-124 | both edges of a clockwise quarter-turn pair count +1 and both of a counter-clockwise pair count -1 |
| ExtiEncoder.PhasesAntisymmetric | stm32/learning/lesson_5-2/src/Encoder.c:118-161 | a fall of A and a fall of B with the other phase at the same level count in opposite senses |
| ExtiEncoder.Decoder.constructor | stm32/learning/lesson_5-2/src/Encoder.c:25 | Encoder_Count starts at 0 with no interrupt pending |
| ExtiEncoder.Decoder.Fall | stm32/learning/lesson_5-2/src/Encoder.c:52 | a falling edge on line 0 or 1 sets that line's pending bit and no other |
| ExtiEncoder.Decoder.Exti0 | stm32/learning/lesson_5-2/src/Encoder.c:106-131 | with line 0 pending the count moves by StepA, wrapping as int16_t, and the pending bit is cleared; otherwise nothing changes |
| ExtiEncoder.Decoder.Exti1 | stm32/learning/lesson_5-2/src/Encoder.c:143-168 | with line 1 pending the count moves by StepB, wrapping as int16_t, and the pending bit is cleared; otherwise nothing changes |
| ExtiEncoder.Decoder.Get | stm32/learning/lesson_5-2/src/Encoder.c:77-82 | Encoder_Get returns the count since the last call and resets it to 0 |
| ExtiEncoder.ClockwiseDetent | stm32/learning/lesson_5-2/src/Encoder.c:113-124 | one clockwise detent (A falls with B high, then B falls with A low) reports +2 |
| ExtiEncoder.CounterClockwiseDetent | stm32/learning/lesson_5-2/src/Encoder.c:150-161 | one counter-clockwise detent reports -2 |
| ExtiEncoder.Bounce | stm32/learning/lesson_5-2/src/Encoder.c:110-111 | an edge whose pin reads high again in the handler counts nothing and is still cleared |
| TimerEncoder.DeltaRecovers | stm32/projects/course_capstone/src/Encoder_TIM.c:42-47 | an int16_t movement counted from 0 reads back exactly as that delta |
| TimerEncoder.DeltaAliases | stm32/projects/course_capstone/src/Encoder_TIM.c:44 | 32768 counts forward read as -32768, and 0xFFFF reads as -1 |
| TimerEncoder.Counter.constructor | stm32/projects/course_capstone/src/Encoder_TIM.c:28 | the counter starts at 0 |
| TimerEncoder.Counter.Count | stm32/projects/course_capstone/src/Encoder_TIM.c:22 | the hardware counts edges modulo the period of 0xFFFF plus one |
| TimerEncoder.Counter.GetDelta | stm32/projects/course_capstone/src/Encoder_TIM.c:42-47 | the delta is the counter read as an int16_t, and the counter is cleared |
| TimerEncoder.ReadTwice | stm32/learning/lesson_6-8/src/Encoder.c:57-63 | any movement of fewer than 32768 counts between reads is reported exactly, and an immediate second read gives 0 |
| TimerEncoder.Pair.constructor | stm32/projects/course_capstone/src/Encoder_TIM.c:32-40 | TIM3 and TIM4 are two distinct counters, both starting at 0 |
| TimerEncoder.Pair.Tim3GetDelta | stm32/projects/course_capstone/src/Encoder_TIM.c:49-52 | reading TIM3 clears it and does not disturb TIM4 |
| TimerEncoder.Pair.Tim4GetDelta | stm32/projects/course_capstone/src/Encoder_TIM.c:54-57 | reading TIM4 clears it and does not disturb TIM3 |
| PwmTim2.ChannelPin | stm32/projects/course_capstone/src/PWM_TIM2.c:28-40 | channels 1 .. 4, and only those, have a pin, PA0 .. PA3 |
| PwmTim2.ChannelPinInjective | stm32/projects/course_capstone/src/PWM_TIM2.c:31-38 | two channels never share a pin |
| PwmTim2.Clip | stm32/projects/course_capstone/src/PWM_TIM2.c:79-82 | a compare value never exceeds the period: it is kept when within it and becomes the period otherwise |
| PwmTim2.Tim2.constructor | stm32/projects/course_capstone/src/PWM_TIM2.c:4 | s_period starts at 0 with every compare register at 0 and no pin configured |
| PwmTim2.Tim2.Init | stm32/projects/course_capstone/src/PWM_TIM2.c:6-26 | PWM_TIM2_Init records the period and programs it as the auto-reload value, with the prescaler |
| PwmTim2.Tim2.GetPeriod | stm32/projects/course_capstone/src/PWM_TIM2.c:94-97 | PWM_TIM2_GetPeriod returns the recorded period |
| PwmTim2.Tim2.EnableChannel | stm32/projects/course_capstone/src/PWM_TIM2.c:28-75 | channels 1 .. 4 get their pin and start at compare 0; any other number changes nothing |
| PwmTim2.Tim2.SetCompare | stm32/projects/course_capstone/src/PWM_TIM2.c:77-92 | the clipped value goes to the channel's compare register alone; an unknown channel writes nothing |
| Motor.ClampSpeed | stm32/projects/course_capstone/src/Motor.c:7-11 | the speed is clamped to -1000 .. 1000, unchanged inside that range, and keeps its sign |
| Motor.Duty | stm32/projects/course_capstone/src/Motor.c:33-36 | the compare value never exceeds the period; below the largest period it is the per-mille share of the cycle rounded down, and full speed gives exactly the period |
| Motor.DutyQuotient | stm32/projects/course_capstone/src/Motor.c:34 | the uint32_t quotient is the floor of m * (period + 1) / 1000, stays within the period unless m is 1000, and is exactly period + 1 at full speed |
| Motor.DutyLargestPeriod | stm32/projects/course_capstone/src/Motor.c:34 | at the period 0xFFFF the uint16_t cast wraps full speed to 0 and 999 gives 65470 |
| Motor.DutyMonotone | stm32/projects/course_capstone/src/Motor.c:34-36 | a faster command never gets a smaller compare value |
| Motor.Compare | stm32/projects/course_capstone/src/Motor.c:13-37 | a stopped motor gets compare 0 and every compare value is within the period |
| Motor.CompareSymmetric | stm32/projects/course_capstone/src/Motor.c:21-31 | at the 20 kHz motor period the same magnitude drives forward and reverse equally hard |
| Motor.CompareExamples | stm32/projects/course_capstone/src/Motor.c:34 | full speed gives 3599, -500 gives 1800 and 1 gives 3 at the motor period |
| Motor.Driver.constructor | stm32/projects/course_capstone/src/Motor.c:40-56 | Motor_Init programs the period 3599, enables CH1 and CH2 and leaves both motors stopped with all four direction pins low |
| Motor.Driver.SetOne | stm32/projects/course_capstone/src/Motor.c:5-38 | after the clamp, forward raises in1 and lowers in2, reverse the opposite, stop lowers both, and the channel gets Compare of the clamped speed |
| Motor.Driver.Set | stm32/projects/course_capstone/src/Motor.c:58-62 | the left motor gets PB0/PB1 and CH1, the right one PB12/PB13 and CH2, each as SetOne says |
| Motor.Driver.Stop | stm32/projects/course_capstone/src/Motor.c:64-67 | all four direction pins low and both compare values 0 |
| Servo.ClampPulse | stm32/projects/course_capstone/src/Servo.c:4-11 | the pulse width is held to 500 .. 2500 us, unchanged inside, and at the nearer end outside |
| Servo.ClampIdempotent | stm32/projects/course_capstone/src/Servo.c:4-11 | clamping twice is clamping once |
| Servo.ClampMonotone | stm32/projects/course_capstone/src/Servo.c:4-11 | a longer request never gives a shorter pulse |
| Servo.ClampFitsPeriod | stm32/projects/course_capstone/src/Servo.c:31-32 | every clamped pulse fits the 20 ms frame, so PWM_TIM2_SetCompare passes it on unclipped |
| Servo.Init | stm32/projects/course_capstone/src/Servo.c:13-20 | Servo_Init sets the 1 MHz tick and 20000-tick frame and enables CH1 .. CH3 at compare 0 |
| Watchdog.ClampReload | stm32/projects/course_capstone/src/Watchdog.c:10-17 | the clamps put the reload in 1 .. 0x0FFF and leave a value already there unchanged |
| Watchdog.ReloadAsWritten | stm32/projects/course_capstone/src/Watchdog.c:9-17 | the reload with timeout_ms * 40 computed in uint32_t is always in 1 .. 0x0FFF |
| Watchdog.ReloadWraps | stm32/projects/course_capstone/src/Watchdog.c:9 | 107374183 ms wraps the product and gets the shortest reload, 1, where the exact product gives 0x0FFF; one millisecond less still gives 0x0FFF |
| Watchdog.Reload | stm32/projects/course_capstone/src/Watchdog.c:9-17 | the intended reload is in 1 .. 0x0FFF, never longer than the timeout asks, and within one prescaler step of it when not clamped |
| Watchdog.ReloadAgrees | stm32/projects/course_capstone/src/Watchdog.c:9 | the code as written and the intended reload agree whenever the product fits in 32 bits |
| Watchdog.ReloadMonotone | stm32/projects/course_capstone/src/Watchdog.c:9-17 | a longer timeout never gives a shorter watchdog |
| Watchdog.ReloadExamples | stm32/projects/course_capstone/src/Watchdog.c:21 | 2000 ms writes 2499, 0 ms the minimum and 10000 ms the maximum; every value written is in 0 .. 0x0FFE |
| Watchdog.Iwdg.constructor | stm32/projects/course_capstone/src/Watchdog.c:4-24 | the watchdog is stopped until Watchdog_InitMs |
| Watchdog.Iwdg.InitMs | stm32/projects/course_capstone/src/Watchdog.c:4-24 | prescaler 32, the reload register holds the reload as the code computes it (product wrapping in uint32_t) minus one, which is the intended reload minus one whenever timeout_ms * 40 fits in 32 bits; the counter is loaded and the watchdog runs |
| Watchdog.Iwdg.Feed | stm32/projects/course_capstone/src/Watchdog.c:26-29 | feeding reloads the counter from the reload register |
| AdcDma.ChannelMask | stm32/projects/course_capstone/src/ADC_DMA.c:7-15 | channels 0 .. 7 map to a nonzero pin mask and every other channel to no pin |
| AdcDma.ChannelMaskExamples | stm32/projects/course_capstone/src/ADC_DMA.c:10-14 | channel 0 is PA0 (0x0001), 3 is PA3, 7 is PA7 (0x0080); channels 8 and 17 have no pin |
| AdcDma.BitOfMask | stm32/projects/course_capstone/src/ADC_DMA.c:7-15 | a channel's mask selects its own pin and no other |
| AdcDma.BitOfOr | stm32/projects/course_capstone/src/ADC_DMA.c:38 | OR-ing masks selects the union of their pins |
| AdcDma.WantedSnoc | stm32/projects/course_capstone/src/ADC_DMA.c:36-40 | one more channel adds its pin, if it has one, to the pins wanted so far |
| AdcDma.SelectsNone | stm32/projects/course_capstone/src/ADC_DMA.c:35 | the empty mask selects no pin |
| AdcDma.AddMask | stm32/projects/course_capstone/src/ADC_DMA.c:38 | OR-ing one channel's mask into the accumulated pins adds exactly its pin |
| AdcDma.AddMaskAt | stm32/projects/course_capstone/src/ADC_DMA.c:38 | the same at one pin whose old selection is known |
| AdcDma.AddPins | stm32/projects/course_capstone/src/ADC_DMA.c:41-42 | GPIO_Init with the accumulated mask keeps the pins already analog and adds the wanted ones |
| AdcDma.Scanner.constructor | stm32/projects/course_capstone/src/ADC_DMA.c:4-5 | s_adc_count starts at 0 with no pin analog and every rank at channel 0 |
| AdcDma.Scanner.Init | stm32/projects/course_capstone/src/ADC_DMA.c:17-81 | a count of 0 configures nothing; otherwise the count is min(count, 4), exactly the pins of those channels that have one become analog and channel i gets rank i + 1, other ranks untouched |
| AdcDma.Scanner.GetCount | stm32/projects/course_capstone/src/ADC_DMA.c:83-86 | ADC_DMA_GetCount returns the stored count |
| AdcAudio.FirstPeriod | stm32/projects/course_capstone/src/ADC_Audio.c:16-18 | the first period is 72 MHz / rate raised to 1, so never 0 |
| AdcAudio.Prescaler | stm32/projects/course_capstone/src/ADC_Audio.c:19-22 | the prescaler is 0 exactly when the first period fits 16 bits |
| AdcAudio.AdjustedPeriodFits | stm32/projects/course_capstone/src/ADC_Audio.c:21-23 | after the prescaler, the recomputed period lies in 1 .. 0xFFFE ticks per sample rate |
| AdcAudio.Period | stm32/projects/course_capstone/src/ADC_Audio.c:10-31 | the trigger period always fits the 16-bit auto-reload register and, for any rate up to the timer clock, is the whole number of prescaled ticks per sample rounded down |
| AdcAudio.UnscaledPeriod | stm32/projects/course_capstone/src/ADC_Audio.c:16-18 | without a prescaler the period is 72 MHz / rate rounded down, or 1 for a rate above 72 MHz |
| AdcAudio.PrescaledPeriod | stm32/projects/course_capstone/src/ADC_Audio.c:19-24 | with a prescaler it is q + 1 and the period clock / rate fits |
| AdcAudio.TriggerExamples | stm32/projects/course_capstone/src/ADC_Audio.c:14-24 | 8 kHz needs no prescaler and 9000 ticks; 1 kHz gets prescaler 2 and 24000 ticks; 1 Hz gets prescaler 1099 and 65454 ticks |
| AdcAudio.BlockOf | stm32/projects/course_capstone/src/ADC_Audio.c:131-139 | an index of 0 names the first half of the buffer and any other index the second half, each 128 samples inside the buffer |
| AdcAudio.BlocksTile | stm32/projects/course_capstone/src/ADC_Audio.c:133-139 | the two blocks are disjoint and together cover the 256 samples |
| AdcAudio.Sampler.constructor | stm32/projects/course_capstone/src/ADC_Audio.c:7-8 | s_block_ready and s_block_index start at 0 with nothing pending |
| AdcAudio.Sampler.InitTrigger | stm32/projects/course_capstone/src/ADC_Audio.c:10-36 | the prescaler and auto-reload registers get Prescaler(rate) and Period(rate) - 1, the latter below 0xFFFF |
| AdcAudio.Sampler.HalfTransfer | stm32/projects/course_capstone/src/ADC_Audio.c:80 | the DMA reaching the middle of the buffer raises HT1 |
| AdcAudio.Sampler.TransferComplete | stm32/projects/course_capstone/src/ADC_Audio.c:81 | the DMA reaching the end raises TC1 |
| AdcAudio.Sampler.Irq | stm32/projects/course_capstone/src/ADC_Audio.c:107-121 | the handler clears both flags; a block is ready if one was pending, and with both pending block 1 wins |
| AdcAudio.Sampler.GetBlock | stm32/projects/course_capstone/src/ADC_Audio.c:123-141 | with no block ready nothing is handed out; otherwise the ready flag is cleared and the half named by the index is returned |
| AdcAudio.BothPending | stm32/projects/course_capstone/src/ADC_Audio.c:109-120 | a half-transfer and a transfer-complete before the handler runs hand out the second half |
| AdcAudio.TakeTwice | stm32/projects/course_capstone/src/ADC_Audio.c:125-130 | a second GetBlock with no interrupt in between finds nothing |
| InputCapture.GetFreq | stm32/learning/lesson_6-6/src/IC.c:71 | the frequency 1000000 / (CCR1 + 1) is the number of whole signal periods per second, between 15 Hz and 1 MHz |
| InputCapture.FreqAntitone | stm32/learning/lesson_6-7/src/IC.c:74 | a longer captured period never reads as a higher frequency |
| InputCapture.FreqExamples | stm32/learning/lesson_6-6/src/IC.c:66-71 | a 1 kHz signal captures 999 and reads 1000; the extremes read 1 MHz and 15 Hz |
| InputCapture.GetDuty | stm32/learning/lesson_6-7/src/IC.c:81-93 | the duty is the high time as a whole percentage of the period rounded down, at most 100 when the high time is within the period, and the uint32_t arithmetic cannot wrap |
| InputCapture.DutyExamples | stm32/learning/lesson_6-7/src/IC.c:88-92 | a 50 % signal of period 1000 us reads 50, and a high time of the whole period reads 100 |
| SpectrumOled.LevelChar | stm32/projects/course_capstone/src/main_spectrum_oled.c:25-34 | level 0 shows a space, 1 a dot, 2 a star and anything from 3 up a hash |
| SpectrumOled.LevelCharInjective | stm32/projects/course_capstone/src/main_spectrum_oled.c:25-34 | the four levels get four different characters, so the character tells the level |
| SpectrumOled.Shifted | stm32/projects/course_capstone/src/main_spectrum_oled.c:87 | the second row's level is the next one round the cycle 0, 1, 2, 3, 0 |
| SpectrumOled.Row | stm32/projects/course_capstone/src/main_spectrum_oled.c:83-95 | a row holds one level character per band in columns 0 .. 7, spaces in columns 8 .. 15 and the terminating NUL in column 16 |
| SpectrumOled.RowsDetermineLevels | stm32/projects/course_capstone/src/main_spectrum_oled.c:83-97 | two level vectors with the same third line agree band by band; a silent band shows a dot on line 4 and a full one a space |
| SpectrumOled.Compares | stm32/projects/course_capstone/src/main_spectrum_oled.c:99-102 | the three compare values are the band-pair sums times period / 8, period / 8 and period / 6, and none exceeds the period |
| SpectrumOled.ScaledFits | stm32/projects/course_capstone/src/main_spectrum_oled.c:100-102 | a sum of two levels (at most 6) times period / divisor, for a divisor of 6 or more, stays within the period |
| SpectrumOled.CompareExamples | stm32/projects/course_capstone/src/main_spectrum_oled.c:99-102 | with every band at level 3 and the period 999 the channels get 744, 744 and 996 |
| SpectrumOled.BuildRows | stm32/projects/course_capstone/src/main_spectrum_oled.c:83-95 | the two fresh line buffers hold exactly the unshifted and the shifted row |
| SpectrumOled.Drive | stm32/projects/course_capstone/src/main_spectrum_oled.c:99-102 | channels 1, 2 and 3 receive the three compare values and the other compare registers are unchanged |
| MusicLight.BarLine | stm32/projects/course_capstone/src/main_music_light.c:26-33 | the line has 16 columns plus a NUL; column i is '#' exactly when i is below the bar length and a space otherwise |
| MusicLight.MarksPrefix | stm32/projects/course_capstone/src/main_music_light.c:26-33 | the first n columns of a bar line hold min(bars, n) marks |
| MusicLight.MarksLine | stm32/projects/course_capstone/src/main_music_light.c:26-33 | a line shows exactly min(bars, 16) marks: bar length 0 gives a blank line and 16 or more a full one |
| MusicLight.BarLineMonotone | stm32/projects/course_capstone/src/main_music_light.c:26-33 | a longer bar keeps every mark a shorter one shows |
| MusicLight.BarsToString | stm32/projects/course_capstone/src/main_music_light.c:26-33 | the first 17 cells of the buffer become the bar line and the cells after them are unchanged |
| MusicLight.RowBars | stm32/projects/course_capstone/src/main_music_light.c:90-91 | a row shows the larger of its two bands: at least both and equal to one of them |
| MusicLight.Rows | stm32/projects/course_capstone/src/main_music_light.c:89-93 | line 3 is the bar line of the louder of bands 0 and 1, line 4 that of the louder of bands 6 and 7 |
| Grenade.PatternPin | stm32/learning/lesson_3-3/src/main_grenade.c:75-79 | under LED_SetPattern's port value LED k is lit exactly when bit k of the pattern is set |
| Grenade.SinglePin | stm32/learning/lesson_3-3/src/main_grenade.c:81-86 | under LED_Single's port value exactly the chosen LED is lit |
| Grenade.BeepTable | stm32/learning/lesson_3-3/src/main_grenade.c:134-158 | seconds 5 .. 1 beep every 800, 600, 400, 250 and 150 ms for 100, 80, 60, 50 and 40 ms, any other count every 100 ms for 30 ms; each beep is shorter than its interval |
| Grenade.BeepsAccelerate | stm32/learning/lesson_3-3/src/main_grenade.c:134-158 | each second of the countdown beeps at a shorter interval than the one before it |
| Grenade.Beeps | stm32/learning/lesson_3-3/src/main_grenade.c:161-166 | the beeps in one second are the least count whose intervals reach 1000 ms |
| Grenade.BeepsUnique | stm32/learning/lesson_3-3/src/main_grenade.c:161-166 | any count that reaches 1000 ms with one interval less falling short equals that least count |
| Grenade.BeepsExamples | stm32/learning/lesson_3-3/src/main_grenade.c:134-166 | the intervals 800, 600, 400, 250, 150 and 100 ms give 2, 2, 3, 4, 7 and 10 beeps |
| Grenade.Status | stm32/learning/lesson_3-3/src/main_grenade.c:114-120 | 4 or more seconds to go read Armed, 2 or 3 GET DOWN and fewer DANGER |
| Grenade.Bar | stm32/learning/lesson_3-3/src/main_grenade.c:123-126 | the progress bar grows by two marks per second: 2 at the first second, twice the count at the last |
| Grenade.Repeat | stm32/learning/lesson_3-3/src/main_grenade.c:161-171 | n repetitions of a cycle of events are n times its length |
| Grenade.ChaseDelay | stm32/learning/lesson_3-3/src/main_grenade.c:218-220 | explosion round r waits 30 - 2 r ms, between 12 and 30, so the floor of 10 never applies |
| Grenade.Fade | stm32/learning/lesson_3-3/src/main_grenade.c:268-270 | each fade pattern fits in a byte |
| Grenade.FadeLights | stm32/learning/lesson_3-3/src/main_grenade.c:268-272 | fade step i lights exactly the i + 1 lowest LEDs |
| Grenade.Board.constructor | stm32/learning/lesson_3-3/src/main_grenade.c:51-63 | LED_Init leaves the port at 0x00FF, every LED off, with nothing recorded |
| Grenade.Board.SetPattern | stm32/learning/lesson_3-3/src/main_grenade.c:75-79 | the port becomes the inverted pattern byte with the upper byte low |
| Grenade.Board.Single | stm32/learning/lesson_3-3/src/main_grenade.c:81-86 | an index 0 .. 7 drives only that pin low; any larger index leaves the port unchanged |
| Grenade.Board.BeepSecond | stm32/learning/lesson_3-3/src/main_grenade.c:160-171 | one second records Beeps(interval) cycles of beep, rest of the interval, all LEDs on for 20 ms and off, and ends with every LED off |
| Grenade.Board.Countdown | stm32/learning/lesson_3-3/src/main_grenade.c:96-173 | a count that is positive as int8_t records seconds count .. 1 in turn, each with its number, status, bar and beeps; a count of 0 or one above 127 records nothing |
| Grenade.AppendSecond | stm32/learning/lesson_3-3/src/main_grenade.c:101-172 | one pass of the outer loop extends the recorded countdown by exactly the next second |
| Grenade.FiveSeconds | stm32/learning/lesson_3-3/src/main_grenade.c:99-171 | a five-second countdown starts with two 800 ms beeps under Armed and ends with seven 150 ms beeps under DANGER and a full bar |
| LessonMotor.Bridge.constructor | stm32/learning/lesson_6-5/src/Motor.c:19-33 | Motor_Init leaves the LED off and the toggle state at 0 |
| LessonMotor.Bridge.SetSpeed | stm32/learning/lesson_6-5/src/Motor.c:74-91 | a speed of 0 or more drives IN1 high and IN2 low, a negative one the reverse, and the compare value is the speed's magnitude |
| LessonMotor.Bridge.SetLed | stm32/learning/lesson_6-5/src/Motor.c:39-49 | the LED is on exactly when the state is nonzero |
| LessonMotor.Bridge.ToggleLed | stm32/learning/lesson_6-5/src/Motor.c:54-66 | the static state flips on each call and the LED follows it |
| LessonMotor.ToggleFromReset | stm32/learning/lesson_6-5/src/Motor.c:54-66 | the first toggle after reset lights the LED and the second turns it off |
| LessonMotor.NextSpeed | stm32/learning/lesson_6-5/src/main_motor.c:49-56 | a press adds 20 to a speed below 100 and turns 100 into -100, staying among the multiples of 20 in -100 .. 100 |
| LessonMotor.PressesPhase | stm32/learning/lesson_6-5/src/main_motor.c:46-56 | n presses advance the speed n places round the cycle of eleven speeds |
| LessonMotor.PhaseNext | stm32/learning/lesson_6-5/src/main_motor.c:49-56 | one press advances the speed one place round the cycle |
| LessonMotor.PhaseInjective | stm32/learning/lesson_6-5/src/main_motor.c:51-55 | different speeds sit at different places of the cycle |
| LessonMotor.SpeedCycle | stm32/learning/lesson_6-5/src/main_motor.c:46-56 | every multiple of eleven presses returns to the starting speed |
| LessonMotor.EverySpeedReached | stm32/learning/lesson_6-5/src/main_motor.c:36-56 | from the start speed 0 every valid speed is reached, after as many presses as its place in the cycle |
| LessonMotor.SpeedExamples | stm32/learning/lesson_6-5/src/main_motor.c:36-56 | five presses reach 100, the sixth -100 and the tenth -20 |
| LessonMotor.Demo.constructor | stm32/learning/lesson_6-5/src/main_motor.c:36 | Speed starts at 0 |
| LessonMotor.Demo.Step | stm32/learning/lesson_6-5/src/main_motor.c:46-59 | a pass steps the speed on key 1 and leaves it otherwise, and the bridge then shows the speed's direction and magnitude |
| Mcs51Blink.TicksPerMs | mcs51/at89s52_blink_sdcc/src/main.c:12 | the ticks per millisecond are the floor of the oscillator frequency over 12000 |
| Mcs51Blink.Reload | mcs51/at89s52_blink_sdcc/src/main.c:13 | the reload value is 65536 minus the ticks per millisecond whenever that does not wrap in unsigned long |
| Mcs51Blink.ReloadHigh | mcs51/at89s52_blink_sdcc/src/main.c:14 | TH0's reload is a byte |
| Mcs51Blink.ReloadLow | mcs51/at89s52_blink_sdcc/src/main.c:15 | TL0's reload is a byte |
| Mcs51Blink.ReloadBytes | mcs51/at89s52_blink_sdcc/src/main.c:13-15 | TH0 and TL0's reload bytes together are the low 16 bits of the reload value |
| Mcs51Blink.CycleTicks | mcs51/at89s52_blink_sdcc/src/main.c:29-33 | a reload-to-overflow cycle lasts between 1 and 65536 ticks |
| Mcs51Blink.CycleIsOneMs | mcs51/at89s52_blink_sdcc/src/main.c:12-15 | a cycle lasts the ticks per millisecond modulo 65536 (65536 for a multiple), so exactly one millisecond whenever the ticks per millisecond are between 1 and 65536 |
| Mcs51Blink.DefaultReload | mcs51/at89s52_blink_sdcc/src/main.c:4-15 | at 11.0592 MHz the ticks per millisecond are 921, the reload 0xFC67, TH0 0xFC and TL0 0x67, and a cycle lasts 921 ticks |
| Mcs51Blink.Mcu.Count | mcs51/at89s52_blink_sdcc/src/main.c:29-30 | the 16-bit count TH0:TL0 is below 65536 |
| Mcs51Blink.Mcu.constructor | mcs51/at89s52_blink_sdcc/src/main.c:39 | after reset P1.0 is high, Timer 0 is stopped with TF0 clear and no tick has been counted |
| Mcs51Blink.Mcu.Timer0Init | mcs51/at89s52_blink_sdcc/src/main.c:21-25 | Timer 1's nibble of TMOD is kept, Timer 0's becomes mode 1, and Timer 0 is stopped with TF0 clear |
| Mcs51Blink.Mcu.Tick | mcs51/at89s52_blink_sdcc/src/main.c:32-33 | a running mode-1 timer counts up by one, and only the step from 0xFFFF to 0 sets TF0 |
| Mcs51Blink.Mcu.OneMs | mcs51/at89s52_blink_sdcc/src/main.c:29-35 | one pass of delay_ms's loop takes exactly one cycle of ticks and one overflow and ends stopped with TF0 clear |
| Mcs51Blink.Mcu.DelayMs | mcs51/at89s52_blink_sdcc/src/main.c:27-37 | delay_ms(ms) takes exactly ms overflows and ms cycles of ticks |
| Mcs51Blink.Mcu.BlinkOnce | mcs51/at89s52_blink_sdcc/src/main.c:44-45 | each pass of main's loop flips the LED pin and then waits 500 cycles |
| Mcs51Blink.LedAfter | mcs51/at89s52_blink_sdcc/src/main.c:41-45 | after n passes the pin is high exactly when n is even |
| Mcs51Blink.Run | mcs51/at89s52_blink_sdcc/src/main.c:39-46 | after n passes of main the pin has toggled n times from high and 500 n cycles of ticks have passed |

## Left out

- Peripheral initialisation other than the registers listed above (RCC clocks, GPIO modes, NVIC, USART baud rates, ADC calibration): it is library configuration with no logic of its own.
- Delays, the 10 us I2C settle delays and the TXE, EOC and TC flag spins: real time is not modelled, so a delay is a no-op and a transmit completes at once.
- Interleaving of an interrupt with a main-loop statement, such as the volatile races on the ring buffer, the receive mailbox, the encoder count and the DMA flags: each handler is one atomic step.
- Floating point: the Goertzel band powers, their smoothing and scaling in the music light and the OLED spectrum, the RGB scaling of the music light, `Servo_SetAngle`, and the float angle turning of the gesture arm. The gesture arm keeps its angles in tenths of a degree, the unit its parameter page holds.
- OLED drawing, the buzzer itself and `printf`-style formatting (`Serial_Printf`, `snprintf`): replies and displayed lines are modelled as values or as recorded events, not as formatted text. This covers the data logger's CSV dump lines and status text, the Pomodoro screen and the self-test's result screen.
- The W25Q64 SPI protocol (commands, busy polling, page boundaries): the data logger's flash is a map from record slot to its 32 bytes, a page program ANDs the record into the bytes the slot holds, and a sector erase sets its 128 slots to 0xFF. The self-test takes the identifiers and the bytes read back as inputs.
- DataLogger.Logger.Tick: it writes with the code as written (DataLogger.Logger.WriteOne), not with the corrected DataLogger.Logger.WriteOneErasing, so that the main loop is modelled as it runs.
- Watchdog.Iwdg.InitMs: it computes the reload as the code does, with the wrapping product; the corrected Watchdog.Reload is related to it by Watchdog.ReloadAgrees.
- `MyRTC.c` (time conversion, clock-source selection): the RTC seconds counter is an input.
- `Store.c` (`Store_Save`, `Store_Clear` and the flash page programming): the page is the in-RAM array, and saving is a snapshot of it.
- SmartHomeGateway.Gateway.Process: for `clear` it states only the reply, because the page clearing is done by `Store_Clear` in `Store.c`, which is not part of this model.
- `strtol` and `atoi` are modelled for decimal input with optional leading white space and sign, saturating at the `long` range; other bases and `errno` are not modelled.
- The blocking debounce of `Key_GetNum`: it waits on pin levels with delays, so each main-loop pass takes the key code it returned as an input.
- The samples the DMA writes into the audio and ADC buffers: a block is named by its offset and length, and the samples themselves are not modelled.
- The MCS-51 Timer 0 counts in hardware while the CPU spins; `Mcs51Blink.Mcu.Tick` models one timer tick per pass of the busy wait, which is one way of interleaving the two.
- The grenade's final warning, explosion and aftermath loops and the idle reset loop are a fixed series of LED, buzzer and delay calls: only the explosion speed, the fade patterns and the LED writes they use are modelled.
- Motor.Duty: its per-mille ensures are stated below the period 0xFFFF only. At 0xFFFF the `uint16_t` cast wraps, so full speed gives 0 (stated by Motor.DutyLargestPeriod); no caller configures that period.

## Findings

| source | as written | input that shows it | evidently intended | confidence | as-written member | corrected member |
|---|---|---|---|---|---|---|
| stm32/projects/course_capstone/src/Watchdog.c:9 | `timeout_ms * 40` is computed in `uint32_t` and wraps before the division by 32 | `Watchdog_InitMs(107374183)`: the product wraps to 24, the reload to 0 and then 1, so the watchdog gets its shortest timeout instead of its longest | the exact product, clamped to 0x0FFF, so a longer timeout never gives a shorter watchdog | not executed | Watchdog.ReloadAsWritten, Watchdog.ReloadWraps | Watchdog.Reload, Watchdog.ReloadMonotone, Watchdog.ReloadAgrees |
| stm32/projects/course_capstone/src/main_data_logger.c:71-79 | `log_write_one` programs slot `s_wr` / 32 without erasing it, and NOR programming can only clear bits | after 1024 records `s_wr` wraps to 0 and record 1024 is programmed over record 0: the one bit of seq 1024 cannot be set, so the slot still reads as record 0. Power-up (`s_wr = 0`, line 23) followed by `start` (lines 132-137) does the same over the records of the previous session | erase each 4 KiB sector when the write enters it, so every record lands in an erased slot | not executed | DataLogger.Logger.WriteOne, DataLogger.StaleSlotCorrupts | DataLogger.Logger.WriteOneErasing, DataLogger.ErasingWrite |
