# LT8722 register-level protocol engine, modelled in Dafny

This project models the register-level protocol engine of the LT8722 driver. The LT8722 is a power-regulator chip driven over SPI. The model has these parts:

- the table-driven CRC-8 that protects every frame (`crc8.dfy`);
- the three bus transactions (read status, read register, write register): the frames they clock out, and how the bytes clocked back are labelled and judged (`frames.dfy`, `lt8722spi.dfy`);
- the read-modify-write bitfield mutator and the command-register dispatch table built on it (`bitfield.dfy`, `lt8722spi.dfy`);
- the register helpers:
  - register reset;
  - status reset;
  - the output-voltage byte packing;
  - the voltage ramp;
  - the analog-output controls;
- the driver object (`controller.dfy`). It covers:
  - begin;
  - softStart, reset and powerOff, which sequence register operations and fold their verdicts into one error flag;
  - the status and command readers;
  - the limit setters and the preset forwarders.

Supporting files:

- `bytes.dfy`: bytes, big-endian words and bit numbering.
- `bus.dfy`: the bus.
- `spi_defs.dfy`: the constants and the `dataSPI` record of `LT8722SPI.h`.
- `presets.dfy`: the preset tables of `LT8722.h`.

The bus (`Bus.SpiBus`) is full duplex:

- What the device shifts back is an endless stream `miso` of reply bytes, read from position `clock` on.
- The ghost `trace` records every chip-select edge and every byte sent, in order.
- Every transaction method is specified against functions of the bytes the bus shifted back during it:
  - `StatusReply`, `ReadReply` and `WriteReply` label those bytes as the source does;
  - `ChangeBitsReply` does the same for the mutator's read and write.
- Its traffic is specified against the frame functions (`StatusFrame`, `ReadFrame`, `WriteFrame`).
- The properties the source relies on are proved about those functions:
  - the verdict is set unless the acknowledgment is 0xA5 and the CRC matches;
  - the mutator replaces exactly the target bits;
  - a field written reads back;
  - the packing is big-endian and `getCommand` undoes it;
  - every preset fits its field.

`writeRegister` calls `checkCRC` with length 2 (src/LT8722SPI.cpp:125). Captured byte 2 is therefore checked against the CRC of the two status bytes only. `readRegister` uses length 6, which covers status and data. `Frames.WriteReply` and `Frames.ReadReply` state exactly this.

Where the code and its documentation disagree, the model follows the code. `checkCRC`'s doc comment says it returns false when the CRC is correct. The code returns true exactly on a match, and the callers treat it that way. `CRC8.CheckCrc` states the code's meaning.

## Model

| member | source | states |
|---|---|---|
| Bytes.ByteIndex | src/LT8722SPI.cpp:155 | the byte holding bit `p` of a register word, `3 - p/8`, is always one of the four buffer bytes |
| Bytes.SetByteBit | src/LT8722SPI.cpp:159-163 | the mutator's byte update: OR with `1 << o` to set bit `o`, AND with the complement of `1 << o` to clear it |
| Bytes.SetByteBitSpec | src/LT8722SPI.cpp:159-163 | setting bit `o` with OR or clearing it with AND-NOT gives bit `o` the new value and leaves the other seven bits of the byte unchanged |
| Bytes.ByteBitsDetermine | src/LT8722SPI.cpp:159-163 | two bytes that agree on all eight bits are equal |
| Bytes.WordBitsDetermine | src/LT8722SPI.cpp:153-164 | two register words that agree on all 32 bits (bit p at byte 3 - p/8) are equal |
| Bytes.Pack | src/LT8722.cpp:168 | getCommand's shift-or assembly puts `d[0]` in the top byte and `d[3]` in the bottom byte of the 32-bit result |
| Bytes.BigEndianBytes | src/LT8722SPI.cpp:282-284 | the four bytes of a 32-bit code, most significant first, pack back to the same code |
| Bytes.BigEndianBytesOfPack | src/LT8722.cpp:168 | assembling a word into a number and splitting it again gives back the word: getCommand's assembly loses nothing |
| Bytes.WordBitOfPack | src/LT8722SPI.cpp:154-156 | the mutator's bit numbering (bit p % 8 of byte 3 - p / 8) is the numbering of bits in the packed 32-bit value |
| Bitfield.ValueBit | src/LT8722SPI.cpp:157 | `(value >> i) & 0x01` with `value` promoted to int: bit `i` of `value` for `i < 8`, and false for every `i` from 8 on |
| Bitfield.UpdateBit | src/LT8722SPI.cpp:154-163 | one round of the mutator's loop: bit `p % 8` of byte `3 - p / 8` set or cleared |
| Bitfield.ChangeBits | src/LT8722SPI.cpp:153-164 | the mutator's loop as a function: the word after its first `n` rounds, round `i` writing `ValueBit(value, i)` to bit `start + i` |
| Bitfield.UpdateBitSpec | src/LT8722SPI.cpp:154-163 | one round of the mutator's loop changes bit `startBit + i` to the requested value and no other bit of the word |
| Bitfield.ChangeBitsSpec | src/LT8722SPI.cpp:153-164 | after the loop, bit p of the word is bit `p - startBit` of `value` inside the range `[startBit, startBit + numBits)` and the old bit outside it |
| Bitfield.ChangeBitsUnique | src/LT8722SPI.cpp:153-164 | any word with exactly those bits is the mutator's result, so the bit-level characterisation is complete |
| Bitfield.ChangeBitsIgnoresHighBits | src/LT8722SPI.cpp:157 | bits of `value` at or above `numBits` are ignored: two values agreeing on their low `numBits` bits produce the same word |
| Bitfield.ChangeBitsIdempotent | src/LT8722SPI.cpp:153-164 | applying the same field update twice gives the same word as applying it once |
| Bitfield.ChangeBitsCommuteBit | src/LT8722SPI.cpp:153-164 | for updates of two disjoint fields, each bit ends the same whichever update runs first |
| Bitfield.ChangeBitsCommute | src/LT8722SPI.cpp:153-164 | updates of two disjoint bitfields commute |
| Bitfield.FitsOfBound | src/LT8722.h:36-70 | a code below 2^n has no bit set at or above n, i.e. it fits an n-bit field |
| Bitfield.FieldBitsSpec | src/LT8722SPI.cpp:153-164 | reading back the n-bit field at `start` gives bit `start + i` of the word as bit i, and zero above n |
| Bitfield.FieldRoundTrip | src/LT8722SPI.cpp:153-166 | a value that fits the field reads back unchanged from the word the mutator writes |
| CRC8.CrcStep | src/CRC8.cpp:23 | one step of the table fold, `crc = CRC_8_TABLE[crc ^ b]`; the index is a byte, so the lookup into the 256-entry table is always in bounds |
| CRC8.CrcFold | src/CRC8.cpp:40-44 | the loop's running value after folding the bytes of a sequence, left to right, into a start value |
| CRC8.Crc8 | src/CRC8.cpp:21-25 | the CRC of a byte sequence: the fold from 0x00 |
| CRC8.CrcMatches | src/CRC8.cpp:58-74 | checkCRC's comparison: against the CRC of the status bytes when the length is 2, of status and data otherwise |
| CRC8.CrcFoldAppend | src/CRC8.cpp:36-45 | the CRC fold over `a + b` is the fold over `b` continued from the fold over `a` |
| CRC8.GetCrc2 | src/CRC8.cpp:20-26 | getCRC2's loop computes the table fold from 0x00 over the two bytes |
| CRC8.CombineArray | src/CRC8.cpp:84-91 | combineArray fills positions 0..1 with the first array and 2..5 with the second, and writes nothing else |
| CRC8.GetCrc6 | src/CRC8.cpp:36-45 | getCRC6 is the fold over the six-byte concatenation, and equally the fold over the data continued from the status bytes' fold |
| CRC8.CheckCrc | src/CRC8.cpp:58-74 | with length 2 the result is true iff the CRC of the status bytes equals the received CRC (the data is ignored); with any other length iff the CRC of status and data does; the result is `CrcMatches` of the same arguments |
| Frames.AddressByte | src/LT8722SPI.cpp:69 | `(address << 1) & 0xFE` always has bit 0 clear and carries the low seven address bits in bits 7..1 |
| Frames.StatusFrame | src/LT8722SPI.cpp:27-35 | readStatus clocks out 0xF0, the status register's address byte, the CRC of those two bytes, then 0x00 |
| Frames.ReadFrame | src/LT8722SPI.cpp:68-80 | readRegister clocks out 0xF4, the address byte, the header's CRC, then five 0x00 bytes |
| Frames.WriteFrame | src/LT8722SPI.cpp:109-121 | writeRegister clocks out 0xF2, the address byte, the four data bytes, the CRC of header and data, then 0x00 |
| Frames.Verdict | src/LT8722SPI.cpp:43-51 | the error flag is clear exactly when the acknowledgment is 0xA5 and the CRC check passed |
| Frames.StatusReply | src/LT8722SPI.cpp:31-51 | readStatus's record holds captured bytes 0..1 as status, byte 2 as CRC, byte 3 as ack and zero data; its error is clear iff ack is 0xA5 and the status bytes' CRC matches |
| Frames.ReadReply | src/LT8722SPI.cpp:72-91 | readRegister's record holds bytes 0..1 as status, 2..5 as data, 6 as CRC and 7 as ack; its error is clear iff ack is 0xA5 and the CRC of status and data matches |
| Frames.WriteReply | src/LT8722SPI.cpp:113-132 | writeRegister's record holds byte 2 as CRC, 3..6 as data and 7 as ack; its error is clear iff ack is 0xA5 and the CRC of the status bytes alone matches |
| Frames.WriteVerdictIgnoresData | src/LT8722SPI.cpp:124-132 | a write's verdict does not depend on the data bytes captured, because its CRC check has length 2 |
| Bus.SendsShape | src/LT8722SPI.cpp:114-121 | the bytes of a frame go out one per transfer, in order |
| Bus.TransactionShape | src/LT8722SPI.cpp:72-81 | a transaction drives chip select low exactly once before the first transfer and high exactly once after the last, with the frame's bytes in order between |
| Bus.SpiBus.Replies | src/LT8722SPI.cpp:73-80 | the bytes captured over a stretch of transfers are the reply stream's bytes at those positions |
| Bus.SpiBus.RepliesSplit | src/LT8722SPI.cpp:151-166 | the bytes captured over two consecutive transactions are those of the first followed by those of the second |
| Bus.SpiBus.DigitalWrite | src/LT8722SPI.cpp:31 | a chip-select edge is recorded and no byte is clocked |
| Bus.SpiBus.Transfer | src/LT8722SPI.cpp:32 | a transfer sends one byte and returns the byte the device shifted back at that position |
| Bus.SpiBus.Exchange | src/LT8722SPI.cpp:72-81 | one transaction: chip select low, the frame clocked out byte by byte with every reply captured in order, chip select high |
| SpiDefs.CommandSymbolsIncreasing | src/LT8722SPI.h:19-27 | the nine command-field offsets 0, 1, 2, 5, 7, 9, 11, 14, 15 are strictly increasing |
| SpiDefs.RequestValuesFitOneBit | src/LT8722SPI.h:29-30 | ENABLE and DISABLE are distinct one-bit values |
| LT8722SPI.ReadStatus | src/LT8722SPI.cpp:24-54 | readStatus sends the status frame and returns the record StatusReply makes of the four captured bytes |
| LT8722SPI.ReadRegister | src/LT8722SPI.cpp:65-94 | readRegister sends the read frame and returns the record ReadReply makes of the eight captured bytes |
| LT8722SPI.WriteRegister | src/LT8722SPI.cpp:106-135 | writeRegister sends the write frame for the data and returns the record WriteReply makes of the eight captured bytes |
| LT8722SPI.MergeVerdict | src/LT8722SPI.cpp:168-176 | the merged error is clear exactly when both acks are 0xA5 and neither sub-record has its error set |
| LT8722SPI.ChangeBitsReply | src/LT8722SPI.cpp:150-178 | the mutator's record keeps the read's status, CRC and ack and holds the modified word; its error is set iff the read or the write failed |
| LT8722SPI.ModifiedWord | src/LT8722SPI.cpp:153-164 | the in-place bit loop over the four-byte buffer yields exactly the field-updated word |
| LT8722SPI.ChangeBitsInRegister | src/LT8722SPI.cpp:150-179 | read the register, write back the word with the field replaced, and return ChangeBitsReply of the sixteen captured bytes |
| LT8722SPI.CommandFieldWidth | src/LT8722SPI.cpp:226-258 | a width exists exactly for the nine known symbols; each is 1 to 4 bits and the field ends at or below bit 19 |
| LT8722SPI.CommandFieldsDisjoint | src/LT8722SPI.cpp:226-258 | no two command-register fields overlap |
| LT8722SPI.SetCommandRegister | src/LT8722SPI.cpp:223-261 | a known symbol becomes a bit change of its field in register 0; an unknown one reports an error with no bus traffic |
| LT8722SPI.ResetRegisters | src/LT8722SPI.cpp:189-194 | SPI_RST is set then cleared, and only the second update's record is returned |
| LT8722SPI.ResetRegistersPulse | src/LT8722SPI.cpp:189-191 | the first word written has SPI_RST set, the second has it clear, and every other bit of each is the bit read |
| LT8722SPI.ResetStatusRegister | src/LT8722SPI.cpp:205-211 | four zero bytes are written to register 1 |
| LT8722SPI.ShiftedByte | src/LT8722SPI.cpp:283 | `registerValue >> (i * 8)` truncated to a byte when stored |
| LT8722SPI.ShiftedByteIsBigEndian | src/LT8722SPI.cpp:282-284 | the byte `registerValue >> 8i` stored at index `3 - i` is the one big-endian order puts there |
| LT8722SPI.OutputVoltageBytes | src/LT8722SPI.cpp:282-284 | the packing loop produces the big-endian bytes of the code, which pack back to the code |
| LT8722SPI.SetOutputVoltage | src/LT8722SPI.cpp:282-288 | the code goes to register 4 as four bytes, most significant first |
| LT8722SPI.WriteRampSteps | src/LT8722SPI.cpp:309-317 | each ramp code is written to register 4 in turn, eight bytes apiece, and the records are dropped |
| LT8722SPI.RampOutputVoltage | src/LT8722SPI.cpp:304-320 | after the ramp writes, the result is the record of a final read of register 4 |
| LT8722SPI.EnableAnalogOutput | src/LT8722SPI.cpp:330-334 | bit 6 of register 7 is set by the mutator |
| LT8722SPI.DisableAnalogOutput | src/LT8722SPI.cpp:344-348 | bit 6 of register 7 is cleared by the mutator |
| LT8722SPI.SetAnalogOutput | src/LT8722SPI.cpp:359-362 | bits 0..3 of register 7 take the low four bits of the value |
| LT8722SPI.AnalogOutputBits | src/LT8722SPI.cpp:330-362 | enable sets bit 6, disable clears it, select writes bits 0..3, and each leaves every other bit as read |
| LT8722SPI.AnalogSelectAndEnableCommute | src/LT8722SPI.cpp:330-362 | selecting the signal and switching the output touch disjoint bits, so their order does not matter |
| Presets.VoltageLimitCode | src/LT8722.h:19-34 | every voltage-limit code is 0x00..0x0F |
| Presets.PwmMhzCode | src/LT8722.h:36-41 | every frequency code is at most 5 |
| Presets.PwmAdjCode | src/LT8722.h:43-45 | every adjustment code is at most 2 |
| Presets.PwmDutyCode | src/LT8722.h:47-49 | every duty-cycle code is at most 2 |
| Presets.LdoVoltageCode | src/LT8722.h:51-52 | every LDO code is 0 or 1 |
| Presets.InductorCurrentCode | src/LT8722.h:54-61 | every peak-current code is at most 7 |
| Presets.PowerLimitCode | src/LT8722.h:63-66 | every power-limit code is at most 0xF |
| Presets.AnalogOutputCode | src/LT8722.h:68-70 | every analog selector code is at most 0xF |
| Presets.VoltageLimitCodeInjective | src/LT8722.h:19-34 | distinct voltage limits have distinct codes |
| Controller.SoftStartCodeIsTwoPointFiveVolts | src/LT8722SPI.cpp:276-277 | the conversion formula at 2.5 V gives exactly 0xFF000000, the code softStart writes |
| Controller.NegativeLimitCode | src/LT8722.cpp:200 | `~x & 0x0F` is a four-bit value, and for a four-bit limit it is 15 minus the limit |
| Controller.NegativeLimitCodeInvolution | src/LT8722.cpp:200 | applying the negative-limit encoding twice gives back a four-bit limit |
| Controller.LimitWord | src/LT8722.cpp:182 | the limit word `[0, 0, 0, code]` packs to the code itself |
| Controller.StatusWord | src/LT8722.cpp:152 | getStatus puts status[0] in the high byte and status[1] in the low byte |
| Controller.CurrentLimitBytes | src/LT8722.cpp:220-223 | the current-limit word is two zero bytes, then the 16-bit code high byte first, and the last two bytes join back to the code |
| Controller.PresetsFitTheirFields | src/LT8722.h:36-70 | every preset code fits the width of the command-register field its setter writes it into, and each analog selector fits four bits |
| Controller.CommandFieldReadsBack | src/LT8722SPI.cpp:226-258 | a code that fits its field reads back from the command word as written, and every bit outside the field is unchanged |
| Controller.LT8722.Begin | src/LT8722.cpp:39-50 | begin records the pins, raises chip select, resets the registers and then the status register |
| Controller.LT8722.SoftStartPrepare | src/LT8722.cpp:61-65 | the five steps before the first delay run in order whatever their results; error iff one of the five records failed |
| Controller.LT8722.SoftStartFinish | src/LT8722.cpp:67-69 | ramp, switch enable and status reset run in order; error iff one of the three records failed |
| Controller.LT8722.SoftStart | src/LT8722.cpp:58-85 | all eight steps run unconditionally in order; the result is true iff any of the eight records has its error set |
| Controller.LT8722.Reset | src/LT8722.cpp:93-103 | reset registers then status; error iff either record failed |
| Controller.LT8722.PowerOff | src/LT8722.cpp:112-123 | clear ENABLE_REQ, clear SWEN_REQ, reset status; error iff any of the three records failed |
| Controller.LT8722.SetVoltage | src/LT8722.cpp:132-139 | the DAC code is written to register 4 and that write's error is returned |
| Controller.LT8722.GetStatus | src/LT8722.cpp:147-155 | the two captured status bytes joined high byte first |
| Controller.LT8722.GetCommand | src/LT8722.cpp:163-171 | the four data bytes read from register 0, joined most significant first |
| Controller.LT8722.SetPositiveVoltageLimit | src/LT8722.cpp:180-188 | `[0, 0, 0, code]` is written to register 5 and that write's error is returned |
| Controller.LT8722.SetNegativeVoltageLimit | src/LT8722.cpp:198-207 | `[0, 0, 0, 15 - code]` is written to register 6 and that write's error is returned |
| Controller.LT8722.SetPositiveCurrentLimit | src/LT8722.cpp:216-229 | `[0, 0, high, low]` of the 16-bit code is written to register 3 |
| Controller.LT8722.SetNegativeCurrentLimit | src/LT8722.cpp:238-251 | `[0, 0, high, low]` of the 16-bit code is written to register 2 |
| Controller.LT8722.SetPwmFreq | src/LT8722.cpp:260-265 | the frequency code goes into SW_FRQ_SET (3 bits at bit 2) and the mutator's error is returned |
| Controller.LT8722.SetPwmAdjust | src/LT8722.cpp:274-279 | the adjustment code goes into SW_FRQ_ADJ (2 bits at bit 5) |
| Controller.LT8722.SetPwmDutyCycle | src/LT8722.cpp:288-293 | the duty-cycle code goes into SYS_DC (2 bits at bit 7) |
| Controller.LT8722.SetLdoVoltage | src/LT8722.cpp:302-307 | the LDO code goes into VCC_VREG (1 bit at bit 9) |
| Controller.LT8722.SetPeakInductor | src/LT8722.cpp:316-321 | the peak-current code goes into SW_VC_INT (3 bits at bit 11) |
| Controller.LT8722.SetPowerLimit | src/LT8722.cpp:330-335 | the power-limit code goes into PWR_LIM (4 bits at bit 15) |

## Left out

- Physical I/O is abstracted:
  - `SPIClass::transfer` becomes a read of the reply stream;
  - `digitalWrite` on chip select becomes a trace event;
  - `pinMode`, `spi->begin`, `delay` and the bus selection (HSPI or FSPI) in the LT8722 constructor are not modelled.
- Timing is not modelled: the delays in softStart and in the ramp are left out.
- Controller.LT8722.Begin: begin and the object's construction are merged into one constructor that takes the bus, the chip-select pin and the analog input pin. The SPI pin arguments of begin only configure the peripheral.
- Floating-point conversions are not modelled:
  - the voltage-to-DAC-code formula of setOutputVoltage;
  - the /-16 gain of setVoltage;
  - the current-limit formulas.

  The resulting 32-bit or 16-bit code is an input of `SetOutputVoltage`, `Controller.LT8722.SetVoltage` and the current-limit setters. The one code the model fixes is softStart's 2.5 V, exactly 0xFF000000.
- The 16-bit truncation of a current limit outside 0..65535 is not modelled. That conversion from double is undefined behaviour in C++.
- LT8722SPI.RampOutputVoltage: the step count, the step values, the loop bound and the delay are computed in doubles. The model takes the sequence of DAC codes the ramp writes as an input. It does not model the division by zero when start equals end or the step size is zero. In softStart the codes are likewise an input.
- readAnalogOutput is not modelled: it mixes ADC sampling with floating point.
- The contents of the CRC-8 table are not modelled. They live in `CRC8.h`, which is not part of this model, so `CRC8.CRC_8_TABLE` is an arbitrary 256-entry table and nothing depends on the polynomial.
- LT8722SPI.ChangeBitsInRegister: it requires `startBit + numBits <= 32`. Outside that range the source writes outside its four-byte buffer (undefined behaviour). Every caller stays inside it.
- LT8722SPI.SetCommandRegister: for an unknown symbol the source leaves every field of the record except `error` uninitialised. The contract states only the error and the absence of bus traffic.
- The header declares the setters with `uint8_t` parameters while the implementation takes the preset enumerations. The model takes the preset datatypes.
- The demo program Basic_Voltage_Control.cpp is not modelled: it only logs over serial in an endless loop.
