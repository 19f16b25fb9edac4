/**
 * The frame codec of src/LT8722SPI.cpp: the bytes each transaction clocks
 * out, and how the bytes clocked back are labelled and judged.
 *
 * Each transaction is a fixed frame: a command byte, the register address
 * shifted left by one, then the CRC, data and padding bytes. Every position
 * both sends a byte and captures one; the reply functions below say which
 * captured byte becomes which field of the transaction record, and when
 * the record is marked failed (acknowledgment not 0xA5, or CRC mismatch).
 */
module Frames {
  import opened Bytes
  import opened CRC8
  import opened SpiDefs

  /** Command bytes of the three frame kinds. */
  const STATUS_COMMAND: bv8 := 0xF0
  const READ_COMMAND: bv8 := 0xF4
  const WRITE_COMMAND: bv8 := 0xF2

  /** The acknowledgment byte of a transaction the device accepted. */
  const ACK: bv8 := 0xA5

  /** The status register's address. */
  const STATUS_REGISTER: bv8 := 0x01

  /** `(address << 1) & 0xFE`: the address in bits 7..1, bit 0 always clear; the device recovers the low seven bits. */
  function AddressByte(address: bv8): (b: bv8)
    ensures b & 0x01 == 0
    ensures b >> 1 == address & 0x7F
  {
    (address << 1) & 0xFE
  }

  /** The status-read frame: header `0xF0, 0x02`, the header's CRC, one padding byte for the acknowledgment. */
  function StatusFrame(): (f: seq<bv8>)
    ensures |f| == 4 && f[0] == STATUS_COMMAND && f[1] >> 1 == STATUS_REGISTER && f[1] & 0x01 == 0
    ensures f[2] == Crc8(f[..2]) && f[3] == 0x00
  {
    var header := [STATUS_COMMAND, AddressByte(STATUS_REGISTER)];
    assert (header + [Crc8(header), 0x00])[..2] == header;
    header + [Crc8(header), 0x00]
  }

  /** The register-read frame: header, the header's CRC, then five padding bytes. */
  function ReadFrame(address: bv8): (f: seq<bv8>)
    ensures |f| == 8 && f[0] == READ_COMMAND && f[1] >> 1 == address & 0x7F && f[1] & 0x01 == 0
    ensures f[2] == Crc8(f[..2]) && forall i :: 3 <= i < 8 ==> f[i] == 0x00
  {
    var header := [READ_COMMAND, AddressByte(address)];
    var f := header + [Crc8(header), 0x00, 0x00, 0x00, 0x00, 0x00];
    assert f[..2] == header;
    f
  }

  /** The register-write frame: header, the four data bytes, the CRC of header and data, one padding byte. */
  function WriteFrame(address: bv8, d: Word): (f: seq<bv8>)
    ensures |f| == 8 && f[0] == WRITE_COMMAND && f[1] >> 1 == address & 0x7F && f[1] & 0x01 == 0
    ensures f[2..6] == d && f[6] == Crc8(f[..6]) && f[7] == 0x00
  {
    var header := [WRITE_COMMAND, AddressByte(address)];
    var f := header + d + [Crc8(header + d), 0x00];
    assert f[..6] == header + d && f[2..6] == d;
    f
  }

  /** The error flag the source computes: set unless the acknowledgment is 0xA5 and the CRC check passed. */
  function Verdict(ack: bv8, crcOk: bool): (error: bool)
    ensures !error <==> ack == ACK && crcOk
  {
    if ack == ACK then !crcOk else true
  }

  /**
   * readStatus's record from the four captured bytes: status, status, CRC,
   * acknowledgment; the data bytes are set to zero and the CRC covers the
   * status bytes only.
   */
  function StatusReply(rx: seq<bv8>): (r: DataSpi)
    requires |rx| == 4
    ensures r.status == rx[..2] && r.data == ZERO_WORD && r.crc == rx[2] && r.ack == rx[3]
    ensures !r.error <==> rx[3] == ACK && Crc8(rx[..2]) == rx[2]
  {
    var status: Pair := rx[..2];
    DataSpi(status, ZERO_WORD, rx[2], rx[3], Verdict(rx[3], CrcMatches(status, ZERO_WORD, 2, rx[2])))
  }

  /**
   * readRegister's record from the eight captured bytes: status at 0..1,
   * data at 2..5, CRC at 6, acknowledgment at 7; the CRC covers status and
   * data.
   */
  function ReadReply(rx: seq<bv8>): (r: DataSpi)
    requires |rx| == 8
    ensures r.status == rx[..2] && r.data == rx[2..6] && r.crc == rx[6] && r.ack == rx[7]
    ensures !r.error <==> rx[7] == ACK && Crc8(rx[..6]) == rx[6]
  {
    var status: Pair := rx[..2];
    var data: Word := rx[2..6];
    assert status + data == rx[..6];
    DataSpi(status, data, rx[6], rx[7], Verdict(rx[7], CrcMatches(status, data, 6, rx[6])))
  }

  /**
   * writeRegister's record from the eight captured bytes: status at 0..1,
   * CRC at 2, data at 3..6, acknowledgment at 7. The check is made with
   * length 2, so the CRC covers the status bytes only.
   */
  function WriteReply(rx: seq<bv8>): (r: DataSpi)
    requires |rx| == 8
    ensures r.status == rx[..2] && r.crc == rx[2] && r.data == rx[3..7] && r.ack == rx[7]
    ensures !r.error <==> rx[7] == ACK && Crc8(rx[..2]) == rx[2]
  {
    var status: Pair := rx[..2];
    var data: Word := rx[3..7];
    DataSpi(status, data, rx[2], rx[7], Verdict(rx[7], CrcMatches(status, data, 2, rx[2])))
  }

  /** A write's verdict depends only on the status, CRC and acknowledgment bytes, never on the data bytes captured. */
  lemma WriteVerdictIgnoresData(rx: seq<bv8>, rx': seq<bv8>)
    requires |rx| == 8 && |rx'| == 8
    requires rx[..3] == rx'[..3] && rx[7] == rx'[7]
    ensures WriteReply(rx).error == WriteReply(rx').error
  {
    assert rx[..2] == rx[..3][..2] && rx'[..2] == rx'[..3][..2];
  }
}
