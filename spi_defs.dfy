/**
 * The constants and the transaction record of src/LT8722SPI.h.
 */
module SpiDefs {
  import opened Bytes

  /** A command-register symbol as the routines take it: an unsigned byte naming the field's first bit. */
  type Symbol = s: nat | s < 256

  /** Bit offsets of the fields of the command register (register 0x00). */
  const ENABLE_REQ: Symbol := 0
  const SWEN_REQ: Symbol := 1
  const SW_FRQ_SET: Symbol := 2
  const SW_FRQ_ADJ: Symbol := 5
  const SYS_DC: Symbol := 7
  const VCC_VREG: Symbol := 9
  const SW_VC_INT: Symbol := 11
  const SPI_RST: Symbol := 14
  const PWR_LIM: Symbol := 15

  /** The command-register symbols in the order the header lists them. */
  const COMMAND_SYMBOLS: seq<Symbol> :=
    [ENABLE_REQ, SWEN_REQ, SW_FRQ_SET, SW_FRQ_ADJ, SYS_DC, VCC_VREG, SW_VC_INT, SPI_RST, PWR_LIM]

  /** Values written to the one-bit request fields. */
  const DISABLE: bv8 := 0x0
  const ENABLE: bv8 := 0x1

  /** A value that may be missing. */
  datatype Option<T> = None | Some(value: T)

  /**
   * dataSPI: what one transaction reports, two status bytes, four data
   * bytes, the device's CRC byte, its acknowledgment byte and the verdict.
   */
  datatype DataSpi = DataSpi(status: Pair, data: Word, crc: bv8, ack: bv8, error: bool)

  /** The header lists the command-field offsets in strictly increasing order. */
  lemma CommandSymbolsIncreasing()
    ensures |COMMAND_SYMBOLS| == 9
    ensures forall i, j :: 0 <= i < j < |COMMAND_SYMBOLS| ==> COMMAND_SYMBOLS[i] < COMMAND_SYMBOLS[j]
  {
  }

  /** ENABLE and DISABLE fit the one-bit request fields they are written to. */
  lemma RequestValuesFitOneBit()
    ensures ENABLE < 2 && DISABLE < 2 && ENABLE != DISABLE
  {
  }
}
