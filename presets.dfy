/**
 * The preset codes of src/LT8722.h: each family of settings the driver
 * offers, and the code each setting is written to the chip as.
 */
module Presets {

  /** Output voltage limits, 1.25 V to 20 V in steps of 1.25 V (VOLTAGE_LIMIT_*). */
  datatype VoltageLimit =
    | Limit1_25 | Limit2_50 | Limit3_75 | Limit5_00
    | Limit6_25 | Limit7_50 | Limit8_75 | Limit10_00
    | Limit11_25 | Limit12_50 | Limit13_75 | Limit15_00
    | Limit16_25 | Limit17_50 | Limit18_75 | Limit20_00

  /** The code of a voltage limit: 0x00 for 1.25 V up to 0x0F for 20 V, a four-bit value. */
  function VoltageLimitCode(l: VoltageLimit): (code: bv8)
    ensures code <= 0x0F
  {
    match l
    case Limit1_25 => 0x00
    case Limit2_50 => 0x01
    case Limit3_75 => 0x02
    case Limit5_00 => 0x03
    case Limit6_25 => 0x04
    case Limit7_50 => 0x05
    case Limit8_75 => 0x06
    case Limit10_00 => 0x07
    case Limit11_25 => 0x08
    case Limit12_50 => 0x09
    case Limit13_75 => 0x0A
    case Limit15_00 => 0x0B
    case Limit16_25 => 0x0C
    case Limit17_50 => 0x0D
    case Limit18_75 => 0x0E
    case Limit20_00 => 0x0F
  }

  /** Switching frequencies, 0.5 MHz to 3 MHz (PWM_MHZ_*). */
  datatype PwmMhz = Mhz0_5 | Mhz1_0 | Mhz1_5 | Mhz2_0 | Mhz2_5 | Mhz3_0

  /** The code of a switching frequency: 0x0 to 0x5, within three bits. */
  function PwmMhzCode(f: PwmMhz): (code: bv8)
    ensures code <= 0x5
  {
    match f
    case Mhz0_5 => 0x0
    case Mhz1_0 => 0x1
    case Mhz1_5 => 0x2
    case Mhz2_0 => 0x3
    case Mhz2_5 => 0x4
    case Mhz3_0 => 0x5
  }

  /** Switching frequency adjustments: none, +15 %, -15 % (PWM_ADJ_*). */
  datatype PwmAdj = Adj0 | Adj15 | AdjMinus15

  /** The code of a frequency adjustment: 0x0 to 0x2, within two bits. */
  function PwmAdjCode(a: PwmAdj): (code: bv8)
    ensures code <= 0x2
  {
    match a
    case Adj0 => 0x0
    case Adj15 => 0x1
    case AdjMinus15 => 0x2
  }

  /** Duty-cycle ranges: 20-80 %, 15-85 %, 10-90 % (PWM_DUTY_*). */
  datatype PwmDuty = Duty20_80 | Duty15_85 | Duty10_90

  /** The code of a duty-cycle range: 0x0 to 0x2, within two bits. */
  function PwmDutyCode(d: PwmDuty): (code: bv8)
    ensures code <= 0x2
  {
    match d
    case Duty20_80 => 0x0
    case Duty15_85 => 0x1
    case Duty10_90 => 0x2
  }

  /** VCC LDO regulation voltages (LDO_VOLTAGE_*). */
  datatype LdoVoltage = Ldo3_4 | Ldo3_1

  /** The code of an LDO voltage: 0x1 for 3.4 V, 0x0 for 3.1 V, one bit. */
  function LdoVoltageCode(v: LdoVoltage): (code: bv8)
    ensures code <= 0x1
  {
    match v
    case Ldo3_4 => 0x1
    case Ldo3_1 => 0x0
  }

  /** Peak inductor currents, 0.252 A to 2.646 A (INDUCTOR_CURRENT_*). */
  datatype InductorCurrent =
    | Current0_252 | Current0_594 | Current0_936 | Current1_278
    | Current1_620 | Current1_962 | Current2_304 | Current2_646

  /** The code of a peak inductor current: 0x0 to 0x7, within three bits. */
  function InductorCurrentCode(c: InductorCurrent): (code: bv8)
    ensures code <= 0x7
  {
    match c
    case Current0_252 => 0x0
    case Current0_594 => 0x1
    case Current0_936 => 0x2
    case Current1_278 => 0x3
    case Current1_620 => 0x4
    case Current1_962 => 0x5
    case Current2_304 => 0x6
    case Current2_646 => 0x7
  }

  /** Power-stage MOSFET power limits (POWER_LIMIT_*). */
  datatype PowerLimit = Power2_0 | PowerNone | Power3_0 | Power3_5

  /** The code of a power limit: 0x0, 0x5, 0xA or 0xF, within four bits. */
  function PowerLimitCode(p: PowerLimit): (code: bv8)
    ensures code <= 0xF
  {
    match p
    case Power2_0 => 0x0
    case PowerNone => 0x5
    case Power3_0 => 0xA
    case Power3_5 => 0xF
  }

  /** Signals the analog output pin can carry (ANALOG_*). */
  datatype AnalogOutput = AnalogVoltage | AnalogCurrent | AnalogTemperature

  /** The selector code of an analog signal: 0x3, 0x4 or 0x8, within four bits. */
  function AnalogOutputCode(a: AnalogOutput): (code: bv8)
    ensures code <= 0xF
  {
    match a
    case AnalogVoltage => 0x3
    case AnalogCurrent => 0x4
    case AnalogTemperature => 0x8
  }

  /** Distinct voltage limits have distinct codes, so the sixteen limits use all sixteen four-bit codes. */
  lemma VoltageLimitCodeInjective(a: VoltageLimit, b: VoltageLimit)
    ensures VoltageLimitCode(a) == VoltageLimitCode(b) ==> a == b
  {
  }
}
