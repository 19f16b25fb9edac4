/**
 * The register-level routines of src/LT8722SPI.cpp.
 *
 * Each transaction selects the device, clocks out a fixed frame one byte
 * at a time while capturing the byte the device shifts back at each
 * position, releases the device and judges the captured bytes. The
 * methods below do exactly that on a `SpiBus`; their contracts tie the
 * record they return to the reply functions of `Frames` applied to the
 * bytes the bus shifted back, and the wire traffic to the frame functions.
 */
module LT8722SPI {
  import opened Bytes
  import opened CRC8
  import opened SpiDefs
  import opened Frames
  import opened Bitfield
  import opened Bus

  /**
   * readStatus: the status frame goes out, the four captured bytes become
   * status, status, CRC and acknowledgment; the data bytes are zero.
   */
  method ReadStatus(spi: SpiBus, cs: bv8) returns (r: DataSpi)
    modifies spi
    ensures spi.clock == old(spi.clock) + 4
    ensures r == StatusReply(spi.Replies(old(spi.clock), 4))
    ensures spi.trace == old(spi.trace) + Transaction(cs, StatusFrame())
  {
    var command: bv8 := STATUS_COMMAND;
    var address: bv8 := (STATUS_REGISTER << 1) & 0xFE;
    var sendingPacket: Pair := [command, address];
    var headerCrc := GetCrc2(sendingPacket);
    var rx := spi.Exchange(cs, sendingPacket + [headerCrc, 0x00]);

    var status: Pair := rx[..2];
    var crc := rx[2];
    var ack := rx[3];
    var data: Word := ZERO_WORD;
    var error: bool;
    if ack == ACK {
      var ok := CheckCrc(status, data, 2, crc);
      error := !ok;
    } else {
      error := true;
    }
    r := DataSpi(status, data, crc, ack, error);
  }

  /**
   * readRegister: the read frame goes out; captured bytes 0..1 are the
   * status, 2..5 the register's data, 6 the CRC and 7 the acknowledgment.
   */
  method ReadRegister(spi: SpiBus, cs: bv8, address: bv8) returns (r: DataSpi)
    modifies spi
    ensures spi.clock == old(spi.clock) + 8
    ensures r == ReadReply(spi.Replies(old(spi.clock), 8))
    ensures spi.trace == old(spi.trace) + Transaction(cs, ReadFrame(address))
  {
    var command: bv8 := READ_COMMAND;
    var addressByte: bv8 := (address << 1) & 0xFE;
    var sendingPacket: Pair := [command, addressByte];
    var headerCrc := GetCrc2(sendingPacket);
    var rx := spi.Exchange(cs, sendingPacket + [headerCrc, 0x00, 0x00, 0x00, 0x00, 0x00]);

    var status: Pair := rx[..2];
    var data: Word := rx[2..6];
    var crc := rx[6];
    var ack := rx[7];
    var error: bool;
    if ack == ACK {
      var ok := CheckCrc(status, data, 6, crc);
      error := !ok;
    } else {
      error := true;
    }
    r := DataSpi(status, data, crc, ack, error);
    assert status + data == rx[..6];
  }

  /**
   * writeRegister: the write frame goes out; captured byte 2 is taken as the
   * CRC, 3..6 as data and 7 as the acknowledgment, and the CRC is checked
   * with length 2, over the status bytes only.
   */
  method WriteRegister(spi: SpiBus, cs: bv8, address: bv8, data: Word) returns (r: DataSpi)
    modifies spi
    ensures spi.clock == old(spi.clock) + 8
    ensures r == WriteReply(spi.Replies(old(spi.clock), 8))
    ensures spi.trace == old(spi.trace) + Transaction(cs, WriteFrame(address, data))
  {
    var command: bv8 := WRITE_COMMAND;
    var addressByte: bv8 := (address << 1) & 0xFE;
    var sendingPacket: Pair := [command, addressByte];
    var frameCrc := GetCrc6(sendingPacket, data);
    var rx := spi.Exchange(cs, sendingPacket + data + [frameCrc, 0x00]);

    var status: Pair := rx[..2];
    var crc := rx[2];
    var received: Word := rx[3..7];
    var ack := rx[7];
    var error: bool;
    if ack == ACK {
      var ok := CheckCrc(status, received, 2, crc);
      error := !ok;
    } else {
      error := true;
    }
    r := DataSpi(status, received, crc, ack, error);
  }

  /**
   * The verdict of changeBitsInRegister: failed unless both acknowledgments
   * are 0xA5 and neither transaction failed.
   */
  function MergeVerdict(ack1: bv8, error1: bool, ack2: bv8, error2: bool): (error: bool)
    ensures !error <==> ack1 == ACK && ack2 == ACK && !error1 && !error2
  {
    if ack1 == ACK && ack2 == ACK then error1 || error2 else true
  }

  /**
   * changeBitsInRegister's record from the sixteen bytes captured during its
   * two transactions, the read's eight then the write's eight: the read's
   * status, CRC and acknowledgment, the modified word, and the merged verdict.
   */
  function ChangeBitsReply(rx: seq<bv8>, start: nat, n: nat, value: bv8): (r: DataSpi)
    requires |rx| == 16 && InRange(start, n)
    ensures r.status == rx[..2] && r.crc == rx[6] && r.ack == rx[7]
    ensures r.data == ChangeBits(rx[2..6], start, n, value)
    ensures r.error <==> ReadReply(rx[..8]).error || WriteReply(rx[8..]).error
    ensures !r.error <==> rx[7] == ACK && Crc8(rx[..6]) == rx[6] && rx[15] == ACK && Crc8(rx[8..10]) == rx[10]
  {
    var packet1 := ReadReply(rx[..8]);
    var packet2 := WriteReply(rx[8..]);
    assert rx[..8][..6] == rx[..6] && rx[8..][..2] == rx[8..10];
    packet1.(data := ChangeBits(packet1.data, start, n, value),
             error := MergeVerdict(packet1.ack, packet1.error, packet2.ack, packet2.error))
  }

  /**
   * The wire traffic of changeBitsInRegister: a read of the register, then
   * a write of the word read (`rx[2..6]`) with the field replaced.
   */
  ghost function ChangeBitsTraffic(cs: bv8, address: bv8, rx: seq<bv8>, start: nat, n: nat, value: bv8): seq<Event>
    requires |rx| == 16 && InRange(start, n)
  {
    Transaction(cs, ReadFrame(address)) + Transaction(cs, WriteFrame(address, ChangeBits(rx[2..6], start, n, value)))
  }

  /**
   * The buffer work of changeBitsInRegister: the four data bytes read are
   * copied into a buffer, then for each `i < numBits` bit `startBit + i` of
   * the big-endian word (bit `(startBit + i) % 8` of byte
   * `3 - (startBit + i) / 8`) is set or cleared according to bit `i` of
   * `value`.
   */
  method ModifiedWord(word: Word, startBit: nat, numBits: nat, value: bv8) returns (d: Word)
    requires InRange(startBit, numBits)
    ensures d == ChangeBits(word, startBit, numBits, value)
  {
    var data := new bv8[4](i requires 0 <= i < 4 => word[i]);
    assert data[..] == word;
    var i: nat := 0;
    while i < numBits
      invariant i <= numBits
      invariant data[..] == ChangeBits(word, startBit, i, value)
    {
      var bitPosition := startBit + i;
      var byteIndex := 3 - bitPosition / 8;
      var bitOffset := bitPosition % 8;
      var bitValue := ValueBit(value, i);
      ghost var before := data[..];
      data[byteIndex] := SetByteBit(data[byteIndex], bitOffset, bitValue);
      assert data[..] == UpdateBit(before, bitPosition, bitValue);
      i := i + 1;
    }
    d := data[..];
  }

  /**
   * changeBitsInRegister: read the register, replace bits
   * `startBit .. startBit + numBits - 1` of the word with the low bits of
   * `value`, write the word back, and merge the two verdicts. The source
   * writes outside its four-byte buffer when the range passes bit 31; the
   * precondition excludes that.
   */
  method ChangeBitsInRegister(spi: SpiBus, cs: bv8, address: bv8, startBit: nat, numBits: nat, value: bv8)
    returns (r: DataSpi)
    requires InRange(startBit, numBits)
    modifies spi
    ensures spi.clock == old(spi.clock) + 16
    ensures r == ChangeBitsReply(spi.Replies(old(spi.clock), 16), startBit, numBits, value)
    ensures spi.trace == old(spi.trace) + ChangeBitsTraffic(cs, address, spi.Replies(old(spi.clock), 16), startBit, numBits, value)
  {
    ghost var c, t := spi.clock, spi.trace;
    var packet1 := ReadRegister(spi, cs, address);
    spi.RepliesSplit(c, 8, 8);
    var data := ModifiedWord(packet1.data, startBit, numBits, value);
    var packet2 := WriteRegister(spi, cs, address, data);

    var error := MergeVerdict(packet1.ack, packet1.error, packet2.ack, packet2.error);
    r := packet1.(data := data, error := error);
    AppendAssoc(t, Transaction(cs, ReadFrame(address)), Transaction(cs, WriteFrame(address, data)));
  }

  /**
   * The dispatch table of setCommandRegister: the width of the command
   * register field that starts at bit `symbol`, or nothing for a byte that
   * names no field.
   */
  function CommandFieldWidth(symbol: Symbol): (w: Option<nat>)
    ensures w.Some? <==> symbol in COMMAND_SYMBOLS
    ensures w.Some? ==> 1 <= w.value <= 4 && symbol + w.value <= 19
  {
    var s := symbol;
    if s == ENABLE_REQ then Some(1)
    else if s == SWEN_REQ then Some(1)
    else if s == SW_FRQ_SET then Some(3)
    else if s == SW_FRQ_ADJ then Some(2)
    else if s == SYS_DC then Some(2)
    else if s == VCC_VREG then Some(1)
    else if s == SW_VC_INT then Some(3)
    else if s == SPI_RST then Some(1)
    else if s == PWR_LIM then Some(4)
    else None
  }

  /** No two command-register fields overlap. */
  lemma CommandFieldsDisjoint(s1: Symbol, s2: Symbol)
    requires s1 != s2 && CommandFieldWidth(s1).Some? && CommandFieldWidth(s2).Some?
    ensures s1 + CommandFieldWidth(s1).value <= s2 || s2 + CommandFieldWidth(s2).value <= s1
  {
  }

  /**
   * setCommandRegister: a known symbol becomes a read-modify-write of its
   * field in the command register (register 0); an unknown one is an error
   * reported without touching the bus.
   */
  method SetCommandRegister(spi: SpiBus, cs: bv8, symbol: Symbol, value: bv8) returns (r: DataSpi)
    modifies spi
    ensures CommandFieldWidth(symbol).None? ==>
              r.error && spi.clock == old(spi.clock) && spi.trace == old(spi.trace)
    ensures CommandFieldWidth(symbol).Some? ==>
              spi.clock == old(spi.clock) + 16 &&
              r == ChangeBitsReply(spi.Replies(old(spi.clock), 16), symbol, CommandFieldWidth(symbol).value, value)
    ensures CommandFieldWidth(symbol).Some? ==>
              spi.trace == old(spi.trace) + ChangeBitsTraffic(cs, 0x00, spi.Replies(old(spi.clock), 16), symbol, CommandFieldWidth(symbol).value, value)
  {
    var width := CommandFieldWidth(symbol);
    if width.Some? {
      r := ChangeBitsInRegister(spi, cs, 0x00, symbol, width.value, value);
    } else {
      // The source leaves every other field of the record uninitialised.
      r := DataSpi([0x00, 0x00], ZERO_WORD, 0x00, 0x00, true);
      assert spi.trace == old(spi.trace) + [];
    }
  }

  /**
   * resetRegisters: set SPI_RST, then clear it; only the second update's
   * record is returned, so an error in the first is not reported.
   */
  method ResetRegisters(spi: SpiBus, cs: bv8) returns (r: DataSpi)
    modifies spi
    ensures spi.clock == old(spi.clock) + 32
    ensures r == ChangeBitsReply(spi.Replies(old(spi.clock) + 16, 16), SPI_RST, 1, DISABLE)
    ensures spi.trace == old(spi.trace) + ChangeBitsTraffic(cs, 0x00, spi.Replies(old(spi.clock), 16), SPI_RST, 1, ENABLE)
                         + ChangeBitsTraffic(cs, 0x00, spi.Replies(old(spi.clock) + 16, 16), SPI_RST, 1, DISABLE)
  {
    assert CommandFieldWidth(SPI_RST) == Some(1);
    var _ := SetCommandRegister(spi, cs, SPI_RST, ENABLE);
    r := SetCommandRegister(spi, cs, SPI_RST, DISABLE);
  }

  /**
   * The words resetRegisters writes: the first has SPI_RST set and the second
   * has it clear, and every other bit of each is the bit just read.
   */
  lemma ResetRegistersPulse(w1: Word, w2: Word, p: nat)
    requires p < 32
    ensures WordBit(ChangeBits(w1, SPI_RST, 1, ENABLE), SPI_RST)
    ensures !WordBit(ChangeBits(w2, SPI_RST, 1, DISABLE), SPI_RST)
    ensures p != SPI_RST ==> WordBit(ChangeBits(w1, SPI_RST, 1, ENABLE), p) == WordBit(w1, p)
    ensures p != SPI_RST ==> WordBit(ChangeBits(w2, SPI_RST, 1, DISABLE), p) == WordBit(w2, p)
  {
    ChangeBitsSpec(w1, SPI_RST, 1, ENABLE, SPI_RST);
    ChangeBitsSpec(w2, SPI_RST, 1, DISABLE, SPI_RST);
    ChangeBitsSpec(w1, SPI_RST, 1, ENABLE, p);
    ChangeBitsSpec(w2, SPI_RST, 1, DISABLE, p);
  }

  /** resetStatusRegister: write four zero bytes to the status register. */
  method ResetStatusRegister(spi: SpiBus, cs: bv8) returns (r: DataSpi)
    modifies spi
    ensures spi.clock == old(spi.clock) + 8
    ensures r == WriteReply(spi.Replies(old(spi.clock), 8))
    ensures spi.trace == old(spi.trace) + Transaction(cs, WriteFrame(STATUS_REGISTER, ZERO_WORD))
  {
    var data: Word := [0x00, 0x00, 0x00, 0x00];
    r := WriteRegister(spi, cs, STATUS_REGISTER, data);
  }

  /** Byte `i` of `x` counted from the least significant end: `x >> 8i` truncated to eight bits. */
  function ShiftedByte(x: bv32, i: bv8): bv8
    requires i < 4
  {
    ((x >> (i * 8)) & 0xFF) as bv8
  }

  /** The byte the packing loop stores at index `3 - i` is the one big-endian order puts there. */
  lemma ShiftedByteIsBigEndian(x: bv32, i: bv8)
    requires i < 4
    ensures ShiftedByte(x, i) == BigEndianBytes(x)[3 - i as int]
  {
    if i == 0 {
    } else if i == 1 {
    } else if i == 2 {
    } else {
    }
  }

  /** The packing loop of setOutputVoltage: `data[3 - i] = registerValue >> 8i` for i = 0..3. */
  method OutputVoltageBytes(registerValue: bv32) returns (data: Word)
    ensures data == BigEndianBytes(registerValue)
    ensures Pack(data) == registerValue
  {
    var buffer := new bv8[4];
    var i: bv8 := 0;
    while i < 4
      invariant i <= 4
      invariant forall k :: 4 - i as int <= k < 4 ==> buffer[k] == BigEndianBytes(registerValue)[k]
    {
      ShiftedByteIsBigEndian(registerValue, i);
      buffer[3 - i as int] := ShiftedByte(registerValue, i);
      i := i + 1;
    }
    data := buffer[..];
  }

  /**
   * setOutputVoltage from the DAC code onwards: the code goes to register 4
   * as four bytes, most significant first.
   */
  method SetOutputVoltage(spi: SpiBus, cs: bv8, registerValue: bv32) returns (r: DataSpi)
    modifies spi
    ensures spi.clock == old(spi.clock) + 8
    ensures r == WriteReply(spi.Replies(old(spi.clock), 8))
    ensures spi.trace == old(spi.trace) + Transaction(cs, WriteFrame(0x04, BigEndianBytes(registerValue)))
  {
    var data := OutputVoltageBytes(registerValue);
    r := WriteRegister(spi, cs, 0x04, data);
  }

  /** The wire traffic of a ramp through `codes`: one write of each code to register 4, in order. */
  ghost function RampTraffic(cs: bv8, codes: seq<bv32>): seq<Event>
  {
    if codes == [] then []
    else RampTraffic(cs, codes[..|codes| - 1]) + Transaction(cs, WriteFrame(0x04, BigEndianBytes(codes[|codes| - 1])))
  }

  /** The clock at which a ramp through `codes` that started at clock `c` has written its last code: eight bytes per code. */
  function RampEnd(c: nat, codes: seq<bv32>): nat
  {
    c + 8 * |codes|
  }

  /** The stepping loop of rampOutputVoltage: each code of the ramp is written to register 4 in turn, and the records are dropped. */
  method WriteRampSteps(spi: SpiBus, cs: bv8, codes: seq<bv32>)
    modifies spi
    ensures spi.clock == RampEnd(old(spi.clock), codes)
    ensures spi.trace == old(spi.trace) + RampTraffic(cs, codes)
  {
    ghost var c, t := spi.clock, spi.trace;
    for i := 0 to |codes|
      invariant spi.clock == c + 8 * i
      invariant spi.trace == t + RampTraffic(cs, codes[..i])
    {
      var _ := SetOutputVoltage(spi, cs, codes[i]);
      assert codes[..i + 1][..i] == codes[..i];
      AppendAssoc(t, RampTraffic(cs, codes[..i]), Transaction(cs, WriteFrame(0x04, BigEndianBytes(codes[i]))));
    }
    assert codes[..|codes|] == codes;
  }

  /**
   * rampOutputVoltage from the DAC codes onwards: the codes of the ramp are
   * written to register 4 in turn, the errors of those writes are dropped,
   * and the result is that of a final read of register 4.
   */
  method RampOutputVoltage(spi: SpiBus, cs: bv8, codes: seq<bv32>) returns (r: DataSpi)
    modifies spi
    ensures spi.clock == RampEnd(old(spi.clock), codes) + 8
    ensures r == ReadReply(spi.Replies(RampEnd(old(spi.clock), codes), 8))
    ensures spi.trace == old(spi.trace) + RampTraffic(cs, codes) + Transaction(cs, ReadFrame(0x04))
  {
    WriteRampSteps(spi, cs, codes);
    r := ReadRegister(spi, cs, 0x04);
  }

  /** The analog-output control register and its fields: the output enable at bit 6, the selector at bits 0..3. */
  const ANALOG_REGISTER: bv8 := 0x07
  const ANALOG_ENABLE_BIT: nat := 6
  const ANALOG_SELECT_BIT: nat := 0
  const ANALOG_SELECT_WIDTH: nat := 4

  /** enableAnalogOutput: set bit 6 of register 7. */
  method EnableAnalogOutput(spi: SpiBus, cs: bv8) returns (r: DataSpi)
    modifies spi
    ensures spi.clock == old(spi.clock) + 16
    ensures r == ChangeBitsReply(spi.Replies(old(spi.clock), 16), ANALOG_ENABLE_BIT, 1, 0x01)
    ensures spi.trace == old(spi.trace) + ChangeBitsTraffic(cs, ANALOG_REGISTER, spi.Replies(old(spi.clock), 16), ANALOG_ENABLE_BIT, 1, 0x01)
  {
    r := ChangeBitsInRegister(spi, cs, ANALOG_REGISTER, ANALOG_ENABLE_BIT, 1, 0x01);
  }

  /** disableAnalogOutput: clear bit 6 of register 7. */
  method DisableAnalogOutput(spi: SpiBus, cs: bv8) returns (r: DataSpi)
    modifies spi
    ensures spi.clock == old(spi.clock) + 16
    ensures r == ChangeBitsReply(spi.Replies(old(spi.clock), 16), ANALOG_ENABLE_BIT, 1, 0x00)
    ensures spi.trace == old(spi.trace) + ChangeBitsTraffic(cs, ANALOG_REGISTER, spi.Replies(old(spi.clock), 16), ANALOG_ENABLE_BIT, 1, 0x00)
  {
    r := ChangeBitsInRegister(spi, cs, ANALOG_REGISTER, ANALOG_ENABLE_BIT, 1, 0x00);
  }

  /** setAnalogOutput: bits 0..3 of register 7 take the low four bits of `value`. */
  method SetAnalogOutput(spi: SpiBus, cs: bv8, value: bv8) returns (r: DataSpi)
    modifies spi
    ensures spi.clock == old(spi.clock) + 16
    ensures r == ChangeBitsReply(spi.Replies(old(spi.clock), 16), ANALOG_SELECT_BIT, ANALOG_SELECT_WIDTH, value)
    ensures spi.trace == old(spi.trace) + ChangeBitsTraffic(cs, ANALOG_REGISTER, spi.Replies(old(spi.clock), 16), ANALOG_SELECT_BIT, ANALOG_SELECT_WIDTH, value)
  {
    r := ChangeBitsInRegister(spi, cs, ANALOG_REGISTER, ANALOG_SELECT_BIT, ANALOG_SELECT_WIDTH, value);
  }

  /**
   * What the analog-output setters write: enabling sets bit 6, disabling
   * clears it, and both leave the selector bits as read; selecting sets
   * bits 0..3 to the low bits of the value and leaves the enable bit.
   */
  lemma AnalogOutputBits(w: Word, value: bv8, p: nat)
    requires p < 32
    ensures WordBit(ChangeBits(w, ANALOG_ENABLE_BIT, 1, 0x01), p) == if p == ANALOG_ENABLE_BIT then true else WordBit(w, p)
    ensures WordBit(ChangeBits(w, ANALOG_ENABLE_BIT, 1, 0x00), p) == if p == ANALOG_ENABLE_BIT then false else WordBit(w, p)
    ensures WordBit(ChangeBits(w, ANALOG_SELECT_BIT, ANALOG_SELECT_WIDTH, value), p) ==
            if p < ANALOG_SELECT_WIDTH then ValueBit(value, p) else WordBit(w, p)
  {
    ChangeBitsSpec(w, ANALOG_ENABLE_BIT, 1, 0x01, p);
    ChangeBitsSpec(w, ANALOG_ENABLE_BIT, 1, 0x00, p);
    ChangeBitsSpec(w, ANALOG_SELECT_BIT, ANALOG_SELECT_WIDTH, value, p);
  }

  /** Selecting the analog signal and switching the output on or off touch different bits, so their order does not matter. */
  lemma AnalogSelectAndEnableCommute(w: Word, value: bv8, on: bv8)
    ensures ChangeBits(ChangeBits(w, ANALOG_SELECT_BIT, ANALOG_SELECT_WIDTH, value), ANALOG_ENABLE_BIT, 1, on) ==
            ChangeBits(ChangeBits(w, ANALOG_ENABLE_BIT, 1, on), ANALOG_SELECT_BIT, ANALOG_SELECT_WIDTH, value)
  {
    ChangeBitsCommute(w, ANALOG_SELECT_BIT, ANALOG_SELECT_WIDTH, value, ANALOG_ENABLE_BIT, 1, on);
  }
}
