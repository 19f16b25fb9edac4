/**
 * The CRC-8 of the LT8722 SPI protocol (src/CRC8.cpp).
 *
 * The CRC is table driven: a running value starts at 0x00 and, for each
 * byte in turn, becomes the table entry at `running ^ byte`. The table
 * itself (and so the generator polynomial) is left open: nothing below
 * depends on its contents.
 */
module CRC8 {
  import opened Bytes

  type CrcTable = t: seq<bv8> | |t| == 256 witness seq(256, _ => 0)

  /** The 256-entry lookup table of the device's CRC-8; its contents are not part of this model. */
  const CRC_8_TABLE: CrcTable

  /** One step of the fold. The index `crc ^ b` is a byte, so the lookup is always in bounds. */
  function CrcStep(crc: bv8, b: bv8): bv8
  {
    CRC_8_TABLE[(crc ^ b) as int]
  }

  /** The running value after folding the bytes of `s`, left to right, into `init`. */
  function CrcFold(init: bv8, s: seq<bv8>): bv8
    decreases |s|
  {
    if s == [] then init else CrcStep(CrcFold(init, s[..|s| - 1]), s[|s| - 1])
  }

  /** The CRC-8 of a byte sequence: the fold from 0x00. */
  function Crc8(s: seq<bv8>): bv8
  {
    CrcFold(0x00, s)
  }

  /** Folding `a + b` is folding `a` and then continuing with `b`. */
  lemma {:induction false} CrcFoldAppend(init: bv8, a: seq<bv8>, b: seq<bv8>)
    ensures CrcFold(init, a + b) == CrcFold(CrcFold(init, a), b)
    decreases |b|
  {
    if b == [] {
      assert a + b == a;
    } else {
      var b' := b[..|b| - 1];
      assert (a + b)[..|a + b| - 1] == a + b';
      CrcFoldAppend(init, a, b');
    }
  }

  /** getCRC2: the CRC of the two bytes of `data`, computed by the source's loop. */
  method GetCrc2(data: Pair) returns (crc: bv8)
    ensures crc == Crc8(data)
  {
    crc := 0x00;
    for i := 0 to 2
      invariant crc == Crc8(data[..i])
    {
      assert data[..i + 1][..i] == data[..i];
      crc := CRC_8_TABLE[(crc ^ data[i]) as int];
    }
    assert data[..2] == data;
  }

  /** combineArray: `whole[0..2)` becomes `first` (the source's array1), `whole[2..6)` becomes `second` (array2); nothing else is written. */
  method CombineArray(first: Pair, second: Word, whole: array<bv8>)
    requires whole.Length >= 6
    modifies whole
    ensures whole[..6] == first + second
    ensures whole[6..] == old(whole[6..])
  {
    for i := 0 to 2
      invariant forall j :: 0 <= j < i ==> whole[j] == first[j]
      invariant forall j :: 2 <= j < whole.Length ==> whole[j] == old(whole[j])
    {
      whole[i] := first[i];
    }
    for i := 0 to 4
      invariant forall j :: 0 <= j < 2 ==> whole[j] == first[j]
      invariant forall j :: 0 <= j < i ==> whole[j + 2] == second[j]
      invariant forall j :: 2 + i <= j < whole.Length ==> whole[j] == old(whole[j])
    {
      whole[i + 2] := second[i];
    }
  }

  /**
   * getCRC6: the CRC of the six bytes `data1 + data2`, computed by combining
   * them into one buffer and folding it; it continues the fold of `data1`.
   */
  method GetCrc6(data1: Pair, data2: Word) returns (crc: bv8)
    ensures crc == Crc8(data1 + data2)
    ensures crc == CrcFold(Crc8(data1), data2)
  {
    var wholeData := new bv8[6];
    CombineArray(data1, data2, wholeData);
    ghost var whole := data1 + data2;
    assert wholeData[..] == whole;
    crc := 0x00;
    for i := 0 to 6
      invariant crc == Crc8(whole[..i])
    {
      assert whole[..i + 1][..i] == whole[..i];
      crc := CRC_8_TABLE[(crc ^ wholeData[i]) as int];
    }
    assert whole[..6] == whole;
    CrcFoldAppend(0x00, data1, data2);
  }

  /** checkCRC's verdict as a function: compare against the CRC of the status bytes (length 2) or of status and data. */
  function CrcMatches(status: Pair, data: Word, length: bv8, crc: bv8): bool
  {
    if length == 2 then Crc8(status) == crc else Crc8(status + data) == crc
  }

  /**
   * checkCRC: true exactly when the received `crc` matches the local one,
   * computed over the status bytes alone when `length` is 2 and over
   * status and data otherwise.
   */
  method CheckCrc(status: Pair, data: Word, length: bv8, crc: bv8) returns (ok: bool)
    ensures length == 2 ==> (ok <==> Crc8(status) == crc)
    ensures length != 2 ==> (ok <==> Crc8(status + data) == crc)
    ensures ok == CrcMatches(status, data, length, crc)
  {
    if length == 2 {
      var calculatedCrc := GetCrc2(status);
      if calculatedCrc == crc {
        return true;
      } else {
        return false;
      }
    } else {
      var calculatedCrc := GetCrc6(status, data);
      if calculatedCrc == crc {
        return true;
      } else {
        return false;
      }
    }
  }
}
