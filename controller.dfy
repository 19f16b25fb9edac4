/**
 * The driver object of src/LT8722.cpp: an LT8722 on a bus with its
 * chip-select pin, the routines that sequence register operations
 * (softStart, reset, powerOff) and fold their verdicts into one error flag,
 * the readers that assemble register bytes into numbers, and the setters
 * that encode a preset or a limit and forward it to one register operation.
 */
module Controller {
  import opened Bytes
  import opened SpiDefs
  import opened Frames
  import opened Bitfield
  import opened Bus
  import opened LT8722SPI
  import opened Presets

  /** The DAC code softStart writes first: setOutputVoltage(2.5), that is 2^32 - 1.25 / (2.5 * 2^-25). */
  const SOFT_START_CODE: bv32 := 0xFF00_0000

  /** The conversion formula gives exactly SOFT_START_CODE at 2.5 V: no rounding is involved. */
  lemma SoftStartCodeIsTwoPointFiveVolts()
    ensures 4294967296.0 - (2.5 - 1.25) / (2.5 / 33554432.0) == 4278190080.0
    ensures SOFT_START_CODE as int == 4278190080
  {
  }

  /** The register each limit goes to. */
  const CURRENT_LIMIT_NEGATIVE_REGISTER: bv8 := 0x02
  const CURRENT_LIMIT_POSITIVE_REGISTER: bv8 := 0x03
  const OUTPUT_VOLTAGE_REGISTER: bv8 := 0x04
  const VOLTAGE_LIMIT_POSITIVE_REGISTER: bv8 := 0x05
  const VOLTAGE_LIMIT_NEGATIVE_REGISTER: bv8 := 0x06

  /**
   * setNegativeVoltageLimit's encoding `~x & 0x0F`: a four-bit value, and
   * for a four-bit limit it is 15 minus the limit.
   */
  function NegativeLimitCode(x: bv8): (r: bv8)
    ensures r <= 0x0F
    ensures x <= 0x0F ==> r == 0x0F - x
  {
    !x & 0x0F
  }

  /** The negative-limit encoding undoes itself on four-bit codes, so no two limits share a code. */
  lemma NegativeLimitCodeInvolution(x: bv8)
    requires x <= 0x0F
    ensures NegativeLimitCode(NegativeLimitCode(x)) == x
  {
  }

  /** A voltage-limit register word: three zero bytes, then the code. */
  function LimitWord(code: bv8): (d: Word)
    ensures Pack(d) == code as bv32
  {
    [0x00, 0x00, 0x00, code]
  }

  /** getStatus's assembly: the first status byte is the high byte of the 16-bit result, the second the low one. */
  function StatusWord(status: Pair): (s: bv16)
    ensures (s >> 8) as bv8 == status[0] && (s & 0xFF) as bv8 == status[1]
  {
    (status[0] as bv16 << 8) | status[1] as bv16
  }

  /** The current-limit register word: two zero bytes, then the 16-bit code high byte first. */
  function CurrentLimitBytes(limit: bv16): (d: Word)
    ensures d[0] == 0x00 && d[1] == 0x00
    ensures (d[2] as bv16 << 8) | d[3] as bv16 == limit
  {
    [0x00, 0x00, (limit >> 8) as bv8, (limit & 0xFF) as bv8]
  }

  /** Every preset code fits the width of the command-register field it is written into, and the analog selector fits its four bits. */
  lemma PresetsFitTheirFields(f: PwmMhz, a: PwmAdj, d: PwmDuty, v: LdoVoltage, c: InductorCurrent, p: PowerLimit, s: AnalogOutput)
    ensures CommandFieldWidth(SW_FRQ_SET) == Some(3) && Fits(PwmMhzCode(f), 3)
    ensures CommandFieldWidth(SW_FRQ_ADJ) == Some(2) && Fits(PwmAdjCode(a), 2)
    ensures CommandFieldWidth(SYS_DC) == Some(2) && Fits(PwmDutyCode(d), 2)
    ensures CommandFieldWidth(VCC_VREG) == Some(1) && Fits(LdoVoltageCode(v), 1)
    ensures CommandFieldWidth(SW_VC_INT) == Some(3) && Fits(InductorCurrentCode(c), 3)
    ensures CommandFieldWidth(PWR_LIM) == Some(4) && Fits(PowerLimitCode(p), 4)
    ensures Fits(AnalogOutputCode(s), ANALOG_SELECT_WIDTH)
  {
    assert Pow2(1) == 2 && Pow2(2) == 4 && Pow2(3) == 8 && Pow2(4) == 16;
    FitsOfBound(PwmMhzCode(f), 3);
    FitsOfBound(PwmAdjCode(a), 2);
    FitsOfBound(PwmDutyCode(d), 2);
    FitsOfBound(LdoVoltageCode(v), 1);
    FitsOfBound(InductorCurrentCode(c), 3);
    FitsOfBound(PowerLimitCode(p), 4);
    FitsOfBound(AnalogOutputCode(s), ANALOG_SELECT_WIDTH);
  }

  /**
   * A code that fits the field of `symbol` reads back from the command word
   * written by setCommandRegister exactly as written, and every bit outside
   * the field is the bit that was read.
   */
  lemma CommandFieldReadsBack(w: Word, symbol: Symbol, code: bv8, p: nat)
    requires CommandFieldWidth(symbol).Some? && Fits(code, CommandFieldWidth(symbol).value) && p < 32
    ensures FieldBits(ChangeBits(w, symbol, CommandFieldWidth(symbol).value, code), symbol, CommandFieldWidth(symbol).value) == code
    ensures !(symbol <= p < symbol + CommandFieldWidth(symbol).value) ==>
              WordBit(ChangeBits(w, symbol, CommandFieldWidth(symbol).value, code), p) == WordBit(w, p)
  {
    var n := CommandFieldWidth(symbol).value;
    FieldRoundTrip(w, symbol, n, code);
    ChangeBitsSpec(w, symbol, n, code, p);
  }

  /** Whether one of the five records of softStart's first phase, started at clock `c`, has its error set. */
  ghost predicate PrepareFails(spi: SpiBus, c: nat)
  {
    ChangeBitsReply(spi.Replies(c + 16, 16), SPI_RST, 1, DISABLE).error
    || WriteReply(spi.Replies(c + 32, 8)).error
    || ChangeBitsReply(spi.Replies(c + 40, 16), ENABLE_REQ, 1, ENABLE).error
    || WriteReply(spi.Replies(c + 56, 8)).error
    || WriteReply(spi.Replies(c + 64, 8)).error
  }

  /** Whether one of the three records of softStart's second phase, started at clock `c`, has its error set. */
  ghost predicate FinishFails(spi: SpiBus, c: nat, rampCodes: seq<bv32>)
  {
    ReadReply(spi.Replies(RampEnd(c, rampCodes), 8)).error
    || ChangeBitsReply(spi.Replies(RampEnd(c, rampCodes) + 8, 16), SWEN_REQ, 1, ENABLE).error
    || WriteReply(spi.Replies(RampEnd(c, rampCodes) + 24, 8)).error
  }

  /** The trace `t` followed by the traffic of softStart's first phase on pin `cs`, started at clock `c`. */
  ghost function PrepareTrace(t: seq<Event>, spi: SpiBus, cs: bv8, c: nat): seq<Event>
  {
    t
    + ChangeBitsTraffic(cs, 0x00, spi.Replies(c, 16), SPI_RST, 1, ENABLE)
    + ChangeBitsTraffic(cs, 0x00, spi.Replies(c + 16, 16), SPI_RST, 1, DISABLE)
    + Transaction(cs, WriteFrame(STATUS_REGISTER, ZERO_WORD))
    + ChangeBitsTraffic(cs, 0x00, spi.Replies(c + 40, 16), ENABLE_REQ, 1, ENABLE)
    + Transaction(cs, WriteFrame(OUTPUT_VOLTAGE_REGISTER, BigEndianBytes(SOFT_START_CODE)))
    + Transaction(cs, WriteFrame(STATUS_REGISTER, ZERO_WORD))
  }

  /** The trace `t` followed by the traffic of softStart's second phase on pin `cs`, started at clock `c`. */
  ghost function FinishTrace(t: seq<Event>, spi: SpiBus, cs: bv8, c: nat, rampCodes: seq<bv32>): seq<Event>
  {
    t
    + RampTraffic(cs, rampCodes) + Transaction(cs, ReadFrame(OUTPUT_VOLTAGE_REGISTER))
    + ChangeBitsTraffic(cs, 0x00, spi.Replies(RampEnd(c, rampCodes) + 8, 16), SWEN_REQ, 1, ENABLE)
    + Transaction(cs, WriteFrame(STATUS_REGISTER, ZERO_WORD))
  }

  /** The LT8722 driver: the bus it talks on, its chip-select pin and the ADC pin wired to the chip's analog output. */
  class LT8722 {
    const spi: SpiBus
    const cs: bv8
    const analogInput: bv8

    /**
     * The object as begin leaves it: the pins recorded, chip select raised,
     * then the registers and the status register reset (the results of both
     * are dropped).
     */
    constructor Begin(spi: SpiBus, cs: bv8, analogInput: bv8)
      modifies spi
      ensures this.spi == spi && this.cs == cs && this.analogInput == analogInput
      ensures spi.clock == old(spi.clock) + 40
      ensures spi.trace == old(spi.trace) + [CsHigh(cs)]
                + ChangeBitsTraffic(cs, 0x00, spi.Replies(old(spi.clock), 16), SPI_RST, 1, ENABLE)
                + ChangeBitsTraffic(cs, 0x00, spi.Replies(old(spi.clock) + 16, 16), SPI_RST, 1, DISABLE)
                + Transaction(cs, WriteFrame(STATUS_REGISTER, ZERO_WORD))
    {
      this.spi := spi;
      this.cs := cs;
      this.analogInput := analogInput;
      new;
      spi.DigitalWrite(cs, true);
      var _ := ResetRegisters(spi, cs);
      var _ := ResetStatusRegister(spi, cs);
    }

    /**
     * The first phase of softStart, up to its first delay: reset the
     * registers and the status register, request enable, set the output to
     * 2.5 V and reset the status register. Every step runs whatever the
     * earlier ones reported; the result is set iff one of the five records
     * has its error set.
     */
    method SoftStartPrepare() returns (error: bool)
      modifies spi
      ensures spi.clock == old(spi.clock) + 72
      ensures error <==> PrepareFails(spi, old(spi.clock))
      ensures spi.trace == PrepareTrace(old(spi.trace), spi, cs, old(spi.clock))
    {
      assert CommandFieldWidth(ENABLE_REQ) == Some(1);
      var dataPacket0 := ResetRegisters(spi, cs);
      var dataPacket1 := ResetStatusRegister(spi, cs);
      assert spi.clock == old(spi.clock) + 40;
      var dataPacket2 := SetCommandRegister(spi, cs, ENABLE_REQ, ENABLE);
      assert spi.clock == old(spi.clock) + 56;
      var dataPacket3 := SetOutputVoltage(spi, cs, SOFT_START_CODE);
      assert spi.clock == old(spi.clock) + 64;
      var dataPacket4 := ResetStatusRegister(spi, cs);
      error := dataPacket0.error || dataPacket1.error || dataPacket2.error || dataPacket3.error || dataPacket4.error;
    }

    /**
     * The second phase of softStart, after its first delay: ramp the output
     * through `rampCodes` (the ramp reports the final read of register 4),
     * request switching and reset the status register; the result is set
     * iff one of the three records has its error set.
     */
    method SoftStartFinish(rampCodes: seq<bv32>) returns (error: bool)
      modifies spi
      ensures spi.clock == RampEnd(old(spi.clock), rampCodes) + 32
      ensures error <==> FinishFails(spi, old(spi.clock), rampCodes)
      ensures spi.trace == FinishTrace(old(spi.trace), spi, cs, old(spi.clock), rampCodes)
    {
      assert CommandFieldWidth(SWEN_REQ) == Some(1);
      var dataPacket5 := RampOutputVoltage(spi, cs, rampCodes);
      var dataPacket6 := SetCommandRegister(spi, cs, SWEN_REQ, ENABLE);
      assert spi.clock == RampEnd(old(spi.clock), rampCodes) + 24;
      var dataPacket7 := ResetStatusRegister(spi, cs);
      error := dataPacket5.error || dataPacket6.error || dataPacket7.error;
    }

    /**
     * softStart: the two phases above, one after the other (the delays
     * between the steps are not modelled). The result is set iff one of the
     * eight records has its error set.
     */
    method SoftStart(rampCodes: seq<bv32>) returns (error: bool)
      modifies spi
      ensures spi.clock == RampEnd(old(spi.clock) + 72, rampCodes) + 32
      ensures error <==> PrepareFails(spi, old(spi.clock)) || FinishFails(spi, old(spi.clock) + 72, rampCodes)
      ensures spi.trace == FinishTrace(PrepareTrace(old(spi.trace), spi, cs, old(spi.clock)), spi, cs, old(spi.clock) + 72, rampCodes)
    {
      var prepareError := SoftStartPrepare();
      var finishError := SoftStartFinish(rampCodes);
      error := prepareError || finishError;
    }

    /** reset: reset the registers, then the status register; set iff either record has its error set. */
    method Reset() returns (error: bool)
      modifies spi
      ensures spi.clock == old(spi.clock) + 40
      ensures error <==>
                ChangeBitsReply(spi.Replies(old(spi.clock) + 16, 16), SPI_RST, 1, DISABLE).error
                || WriteReply(spi.Replies(old(spi.clock) + 32, 8)).error
      ensures spi.trace == old(spi.trace)
                + ChangeBitsTraffic(cs, 0x00, spi.Replies(old(spi.clock), 16), SPI_RST, 1, ENABLE)
                + ChangeBitsTraffic(cs, 0x00, spi.Replies(old(spi.clock) + 16, 16), SPI_RST, 1, DISABLE)
                + Transaction(cs, WriteFrame(STATUS_REGISTER, ZERO_WORD))
    {
      var dataPacket0 := ResetRegisters(spi, cs);
      var dataPacket1 := ResetStatusRegister(spi, cs);
      error := dataPacket0.error || dataPacket1.error;
    }

    /**
     * powerOff: clear the enable request, clear the switching request, reset
     * the status register; set iff one of the three records has its error set.
     */
    method PowerOff() returns (error: bool)
      modifies spi
      ensures spi.clock == old(spi.clock) + 40
      ensures error <==>
                ChangeBitsReply(spi.Replies(old(spi.clock), 16), ENABLE_REQ, 1, DISABLE).error
                || ChangeBitsReply(spi.Replies(old(spi.clock) + 16, 16), SWEN_REQ, 1, DISABLE).error
                || WriteReply(spi.Replies(old(spi.clock) + 32, 8)).error
      ensures spi.trace == old(spi.trace)
                + ChangeBitsTraffic(cs, 0x00, spi.Replies(old(spi.clock), 16), ENABLE_REQ, 1, DISABLE)
                + ChangeBitsTraffic(cs, 0x00, spi.Replies(old(spi.clock) + 16, 16), SWEN_REQ, 1, DISABLE)
                + Transaction(cs, WriteFrame(STATUS_REGISTER, ZERO_WORD))
    {
      assert CommandFieldWidth(ENABLE_REQ) == Some(1) && CommandFieldWidth(SWEN_REQ) == Some(1);
      var dataPacket0 := SetCommandRegister(spi, cs, ENABLE_REQ, DISABLE);
      var dataPacket1 := SetCommandRegister(spi, cs, SWEN_REQ, DISABLE);
      var dataPacket2 := ResetStatusRegister(spi, cs);
      error := dataPacket0.error || dataPacket1.error || dataPacket2.error;
    }

    /** setVoltage from the DAC code onwards: write the code to register 4 and report that write's error. */
    method SetVoltage(registerValue: bv32) returns (error: bool)
      modifies spi
      ensures spi.clock == old(spi.clock) + 8
      ensures error == WriteReply(spi.Replies(old(spi.clock), 8)).error
      ensures spi.trace == old(spi.trace) + Transaction(cs, WriteFrame(OUTPUT_VOLTAGE_REGISTER, BigEndianBytes(registerValue)))
    {
      var dataPacket := SetOutputVoltage(spi, cs, registerValue);
      error := dataPacket.error;
    }

    /** getStatus: read the status and join its two bytes, first byte high. */
    method GetStatus() returns (status: bv16)
      modifies spi
      ensures spi.clock == old(spi.clock) + 4
      ensures status == StatusWord(spi.Replies(old(spi.clock), 4)[..2])
      ensures spi.trace == old(spi.trace) + Transaction(cs, StatusFrame())
    {
      var dataPacket := ReadStatus(spi, cs);
      status := (dataPacket.status[0] as bv16 << 8) | dataPacket.status[1] as bv16;
    }

    /** getCommand: read the command register and join its four data bytes, most significant first. */
    method GetCommand() returns (data: bv32)
      modifies spi
      ensures spi.clock == old(spi.clock) + 8
      ensures data == Pack(spi.Replies(old(spi.clock), 8)[2..6])
      ensures spi.trace == old(spi.trace) + Transaction(cs, ReadFrame(0x00))
    {
      var dataPacket := ReadRegister(spi, cs, 0x00);
      data := (dataPacket.data[0] as bv32 << 24) | (dataPacket.data[1] as bv32 << 16)
            | (dataPacket.data[2] as bv32 << 8) | dataPacket.data[3] as bv32;
    }

    /** setPositiveVoltageLimit: write the limit's code as the low byte of register 5. */
    method SetPositiveVoltageLimit(limit: VoltageLimit) returns (error: bool)
      modifies spi
      ensures spi.clock == old(spi.clock) + 8
      ensures error == WriteReply(spi.Replies(old(spi.clock), 8)).error
      ensures spi.trace == old(spi.trace) + Transaction(cs, WriteFrame(VOLTAGE_LIMIT_POSITIVE_REGISTER, LimitWord(VoltageLimitCode(limit))))
    {
      var limitValue := VoltageLimitCode(limit);
      var data: Word := [0x00, 0x00, 0x00, limitValue];
      var dataPacket := WriteRegister(spi, cs, VOLTAGE_LIMIT_POSITIVE_REGISTER, data);
      error := dataPacket.error;
    }

    /** setNegativeVoltageLimit: write the complemented code, 15 minus the limit's code, as the low byte of register 6. */
    method SetNegativeVoltageLimit(limit: VoltageLimit) returns (error: bool)
      modifies spi
      ensures spi.clock == old(spi.clock) + 8
      ensures error == WriteReply(spi.Replies(old(spi.clock), 8)).error
      ensures spi.trace == old(spi.trace)
                + Transaction(cs, WriteFrame(VOLTAGE_LIMIT_NEGATIVE_REGISTER, LimitWord(0x0F - VoltageLimitCode(limit))))
    {
      var limitValue := VoltageLimitCode(limit);
      limitValue := NegativeLimitCode(limitValue);
      var data: Word := [0x00, 0x00, 0x00, limitValue];
      var dataPacket := WriteRegister(spi, cs, VOLTAGE_LIMIT_NEGATIVE_REGISTER, data);
      error := dataPacket.error;
    }

    /** setPositiveCurrentLimit from the 16-bit code onwards: `[0, 0, high, low]` to register 3. */
    method SetPositiveCurrentLimit(currentLimit: bv16) returns (error: bool)
      modifies spi
      ensures spi.clock == old(spi.clock) + 8
      ensures error == WriteReply(spi.Replies(old(spi.clock), 8)).error
      ensures spi.trace == old(spi.trace) + Transaction(cs, WriteFrame(CURRENT_LIMIT_POSITIVE_REGISTER, CurrentLimitBytes(currentLimit)))
    {
      var data := CurrentLimitBytes(currentLimit);
      var dataPacket := WriteRegister(spi, cs, CURRENT_LIMIT_POSITIVE_REGISTER, data);
      error := dataPacket.error;
    }

    /** setNegativeCurrentLimit from the 16-bit code onwards: `[0, 0, high, low]` to register 2. */
    method SetNegativeCurrentLimit(currentLimit: bv16) returns (error: bool)
      modifies spi
      ensures spi.clock == old(spi.clock) + 8
      ensures error == WriteReply(spi.Replies(old(spi.clock), 8)).error
      ensures spi.trace == old(spi.trace) + Transaction(cs, WriteFrame(CURRENT_LIMIT_NEGATIVE_REGISTER, CurrentLimitBytes(currentLimit)))
    {
      var data := CurrentLimitBytes(currentLimit);
      var dataPacket := WriteRegister(spi, cs, CURRENT_LIMIT_NEGATIVE_REGISTER, data);
      error := dataPacket.error;
    }

    /** setPWMFreq: the frequency's code into SW_FRQ_SET (three bits at bit 2) of the command register. */
    method SetPwmFreq(value: PwmMhz) returns (error: bool)
      modifies spi
      ensures spi.clock == old(spi.clock) + 16
      ensures error == ChangeBitsReply(spi.Replies(old(spi.clock), 16), SW_FRQ_SET, 3, PwmMhzCode(value)).error
      ensures spi.trace == old(spi.trace) + ChangeBitsTraffic(cs, 0x00, spi.Replies(old(spi.clock), 16), SW_FRQ_SET, 3, PwmMhzCode(value))
    {
      assert CommandFieldWidth(SW_FRQ_SET) == Some(3);
      var dataPacket := SetCommandRegister(spi, cs, SW_FRQ_SET, PwmMhzCode(value));
      error := dataPacket.error;
    }

    /** setPWMAdjust: the adjustment's code into SW_FRQ_ADJ (two bits at bit 5). */
    method SetPwmAdjust(value: PwmAdj) returns (error: bool)
      modifies spi
      ensures spi.clock == old(spi.clock) + 16
      ensures error == ChangeBitsReply(spi.Replies(old(spi.clock), 16), SW_FRQ_ADJ, 2, PwmAdjCode(value)).error
      ensures spi.trace == old(spi.trace) + ChangeBitsTraffic(cs, 0x00, spi.Replies(old(spi.clock), 16), SW_FRQ_ADJ, 2, PwmAdjCode(value))
    {
      assert CommandFieldWidth(SW_FRQ_ADJ) == Some(2);
      var dataPacket := SetCommandRegister(spi, cs, SW_FRQ_ADJ, PwmAdjCode(value));
      error := dataPacket.error;
    }

    /** setPWMDutyCycle: the duty-cycle range's code into SYS_DC (two bits at bit 7). */
    method SetPwmDutyCycle(value: PwmDuty) returns (error: bool)
      modifies spi
      ensures spi.clock == old(spi.clock) + 16
      ensures error == ChangeBitsReply(spi.Replies(old(spi.clock), 16), SYS_DC, 2, PwmDutyCode(value)).error
      ensures spi.trace == old(spi.trace) + ChangeBitsTraffic(cs, 0x00, spi.Replies(old(spi.clock), 16), SYS_DC, 2, PwmDutyCode(value))
    {
      assert CommandFieldWidth(SYS_DC) == Some(2);
      var dataPacket := SetCommandRegister(spi, cs, SYS_DC, PwmDutyCode(value));
      error := dataPacket.error;
    }

    /** setLDOVoltage: the LDO voltage's code into VCC_VREG (one bit at bit 9). */
    method SetLdoVoltage(value: LdoVoltage) returns (error: bool)
      modifies spi
      ensures spi.clock == old(spi.clock) + 16
      ensures error == ChangeBitsReply(spi.Replies(old(spi.clock), 16), VCC_VREG, 1, LdoVoltageCode(value)).error
      ensures spi.trace == old(spi.trace) + ChangeBitsTraffic(cs, 0x00, spi.Replies(old(spi.clock), 16), VCC_VREG, 1, LdoVoltageCode(value))
    {
      assert CommandFieldWidth(VCC_VREG) == Some(1);
      var dataPacket := SetCommandRegister(spi, cs, VCC_VREG, LdoVoltageCode(value));
      error := dataPacket.error;
    }

    /** setPeakInductor: the peak current's code into SW_VC_INT (three bits at bit 11). */
    method SetPeakInductor(value: InductorCurrent) returns (error: bool)
      modifies spi
      ensures spi.clock == old(spi.clock) + 16
      ensures error == ChangeBitsReply(spi.Replies(old(spi.clock), 16), SW_VC_INT, 3, InductorCurrentCode(value)).error
      ensures spi.trace == old(spi.trace) + ChangeBitsTraffic(cs, 0x00, spi.Replies(old(spi.clock), 16), SW_VC_INT, 3, InductorCurrentCode(value))
    {
      assert CommandFieldWidth(SW_VC_INT) == Some(3);
      var dataPacket := SetCommandRegister(spi, cs, SW_VC_INT, InductorCurrentCode(value));
      error := dataPacket.error;
    }

    /** setPowerLimit: the power limit's code into PWR_LIM (four bits at bit 15). */
    method SetPowerLimit(value: PowerLimit) returns (error: bool)
      modifies spi
      ensures spi.clock == old(spi.clock) + 16
      ensures error == ChangeBitsReply(spi.Replies(old(spi.clock), 16), PWR_LIM, 4, PowerLimitCode(value)).error
      ensures spi.trace == old(spi.trace) + ChangeBitsTraffic(cs, 0x00, spi.Replies(old(spi.clock), 16), PWR_LIM, 4, PowerLimitCode(value))
    {
      assert CommandFieldWidth(PWR_LIM) == Some(4);
      var dataPacket := SetCommandRegister(spi, cs, PWR_LIM, PowerLimitCode(value));
      error := dataPacket.error;
    }
  }
}
