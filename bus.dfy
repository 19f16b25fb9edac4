/**
 * The SPI peripheral and the chip-select pin as the protocol engine uses
 * them: `digitalWrite(cs, LOW/HIGH)` and `spi->transfer(byte)`.
 *
 * The bus is full duplex: every byte clocked out brings one byte back.
 * What the device shifts back is an endless stream of reply bytes, `miso`,
 * read from position `clock` on; the ghost `trace` records, in order, every
 * chip-select edge and every byte sent.
 */
module Bus {

  /** One thing the controller does on the wire. */
  datatype Event = CsLow(pin: bv8) | CsHigh(pin: bv8) | Send(b: bv8)

  /** The events of clocking out the bytes of `frame`: one `Send` per byte, in order. */
  ghost function Sends(frame: seq<bv8>): seq<Event>
  {
    if frame == [] then [] else Sends(frame[..|frame| - 1]) + [Send(frame[|frame| - 1])]
  }

  /**
   * One transaction on pin `cs`: chip select low, the bytes of `frame`,
   * chip select high.
   */
  ghost function Transaction(cs: bv8, frame: seq<bv8>): seq<Event>
  {
    [CsLow(cs)] + Sends(frame) + [CsHigh(cs)]
  }

  /** `Sends` clocks out every byte of the frame, in order, and nothing else. */
  lemma {:induction false} SendsShape(frame: seq<bv8>)
    ensures |Sends(frame)| == |frame|
    ensures forall i :: 0 <= i < |frame| ==> Sends(frame)[i] == Send(frame[i])
  {
    if frame != [] {
      SendsShape(frame[..|frame| - 1]);
    }
  }

  /**
   * A transaction selects the device exactly once, before the first byte,
   * sends the frame's bytes in order, and releases the device exactly once,
   * after the last byte.
   */
  lemma TransactionShape(cs: bv8, frame: seq<bv8>)
    ensures |Transaction(cs, frame)| == |frame| + 2
    ensures Transaction(cs, frame)[0] == CsLow(cs)
    ensures Transaction(cs, frame)[|frame| + 1] == CsHigh(cs)
    ensures forall i :: 0 < i <= |frame| ==> Transaction(cs, frame)[i] == Send(frame[i - 1])
  {
    SendsShape(frame);
  }

  /**
   * Traffic recorded piece by piece reads the same however the pieces are
   * grouped. Dafny knows this, but naming the instance a routine needs keeps
   * its proof small.
   */
  lemma AppendAssoc(a: seq<Event>, b: seq<Event>, c: seq<Event>)
    ensures a + (b + c) == (a + b) + c
  {
  }

  /** An endless stream of reply bytes: one for every position. */
  type ReplyStream = m: imap<nat, bv8> | forall n: nat :: n in m ghost witness imap n: nat :: 0x00

  class SpiBus {
    /** The byte the device shifts back while the controller clocks out its `n`-th byte. */
    const miso: ReplyStream
    /** How many bytes have been clocked so far. */
    var clock: nat
    /** Chip-select edges and bytes sent so far, oldest first. */
    ghost var trace: seq<Event>

    constructor (miso: ReplyStream)
      ensures this.miso == miso && clock == 0 && trace == []
    {
      this.miso := miso;
      clock := 0;
      trace := [];
    }

    /** The `n` bytes the device shifts back from position `c` on. */
    function Replies(c: nat, n: nat): (rx: seq<bv8>)
      ensures |rx| == n && forall i :: 0 <= i < n ==> rx[i] == miso[c + i]
    {
      seq(n, i requires 0 <= i => miso[c + i])
    }

    /** The bytes shifted back over two consecutive stretches of the stream are the two stretches one after the other. */
    lemma RepliesSplit(c: nat, m: nat, n: nat)
      ensures Replies(c, m + n)[..m] == Replies(c, m)
      ensures Replies(c, m + n)[m..] == Replies(c + m, n)
    {
    }

    /** digitalWrite on the chip-select pin: low selects the device, high releases it. */
    method DigitalWrite(pin: bv8, high: bool)
      modifies this
      ensures clock == old(clock)
      ensures trace == old(trace) + [if high then CsHigh(pin) else CsLow(pin)]
    {
      trace := trace + [if high then CsHigh(pin) else CsLow(pin)];
    }

    /** spi->transfer: clock `b` out and return the byte the device shifted back meanwhile. */
    method Transfer(b: bv8) returns (r: bv8)
      modifies this
      ensures clock == old(clock) + 1 && r == miso[old(clock)]
      ensures trace == old(trace) + [Send(b)]
    {
      r := miso[clock];
      clock := clock + 1;
      trace := trace + [Send(b)];
    }

    /**
     * One transaction as every routine of the protocol performs it: chip
     * select low, the bytes of `frame` clocked out one by one with each
     * reply captured in order, chip select high.
     */
    method Exchange(cs: bv8, frame: seq<bv8>) returns (rx: seq<bv8>)
      modifies this
      ensures clock == old(clock) + |frame|
      ensures rx == Replies(old(clock), |frame|)
      ensures trace == old(trace) + Transaction(cs, frame)
    {
      ghost var c, t := clock, trace;
      DigitalWrite(cs, false);
      rx := [];
      for i := 0 to |frame|
        invariant clock == c + i
        invariant rx == Replies(c, i)
        invariant trace == t + [CsLow(cs)] + Sends(frame[..i])
      {
        var b := Transfer(frame[i]);
        rx := rx + [b];
        assert frame[..i + 1][..i] == frame[..i];
      }
      DigitalWrite(cs, true);
      assert frame[..|frame|] == frame;
    }
  }
}
