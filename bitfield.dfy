/**
 * The word update of the bitfield mutator, changeBitsInRegister in
 * src/LT8722SPI.cpp: bits `start .. start + n - 1` of a register word take
 * the low `n` bits of `value`, bit by bit, and nothing else changes.
 */
module Bitfield {
  import opened Bytes

  /** Bits `start .. start + n - 1` all lie inside a 32-bit word. */
  predicate InRange(start: nat, n: nat)
  {
    start + n <= 32
  }

  /**
   * Bit `i` of the mutator's `value`, as `(value >> i) & 0x01` computes it:
   * `value` is promoted to int first, so every bit from 8 on is zero.
   */
  predicate ValueBit(value: bv8, i: nat)
  {
    i < 8 && ByteBit(value, i)
  }

  /** One round of the mutator's loop: bit `p` of the word (bit `p % 8` of byte `3 - p / 8`) set or cleared. */
  function UpdateBit(v: Word, p: nat, on: bool): Word
    requires p < 32
  {
    v[ByteIndex(p) := SetByteBit(v[ByteIndex(p)], p % 8, on)]
  }

  /**
   * The word after the first `n` rounds of the mutator's loop: round `i`
   * sets or clears bit `start + i` according to bit `i` of `value`.
   */
  function ChangeBits(w: Word, start: nat, n: nat, value: bv8): Word
    requires InRange(start, n)
  {
    if n == 0 then w
    else UpdateBit(ChangeBits(w, start, n - 1, value), start + (n - 1), ValueBit(value, n - 1))
  }

  /** One round changes bit `q` of the word and no other bit. */
  lemma UpdateBitSpec(v: Word, q: nat, on: bool, p: nat)
    requires q < 32 && p < 32
    ensures WordBit(UpdateBit(v, q, on), p) == if p == q then on else WordBit(v, p)
  {
    var k := ByteIndex(q);
    SetByteBitSpec(v[k], q % 8, on, p % 8);
    if ByteIndex(p) == k {
      assert p % 8 == q % 8 <==> p == q;
    }
  }

  /**
   * The meaning of the mutator: bit `p` of the new word is bit `p - start`
   * of `value` inside the target range and the old bit `p` outside it.
   */
  lemma {:induction false} ChangeBitsSpec(w: Word, start: nat, n: nat, value: bv8, p: nat)
    requires InRange(start, n) && p < 32
    ensures WordBit(ChangeBits(w, start, n, value), p) ==
            if start <= p < start + n then ValueBit(value, p - start) else WordBit(w, p)
  {
    if n > 0 {
      UpdateBitSpec(ChangeBits(w, start, n - 1, value), start + (n - 1), ValueBit(value, n - 1), p);
      if p != start + (n - 1) {
        ChangeBitsSpec(w, start, n - 1, value, p);
      }
    }
  }

  /** Two words agree when they agree inside the range and outside it: the characterisation above is complete. */
  lemma ChangeBitsUnique(w: Word, start: nat, n: nat, value: bv8, r: Word)
    requires InRange(start, n)
    requires forall p: nat :: p < 32 ==>
               WordBit(r, p) == if start <= p < start + n then ValueBit(value, p - start) else WordBit(w, p)
    ensures r == ChangeBits(w, start, n, value)
  {
    forall p: nat | p < 32
      ensures WordBit(r, p) == WordBit(ChangeBits(w, start, n, value), p)
    {
      ChangeBitsSpec(w, start, n, value, p);
    }
    WordBitsDetermine(r, ChangeBits(w, start, n, value));
  }

  /** Bits of `value` at or above `n` are ignored: two values that agree on their low `n` bits write the same word. */
  lemma {:induction false} ChangeBitsIgnoresHighBits(w: Word, start: nat, n: nat, value: bv8, value': bv8)
    requires InRange(start, n)
    requires forall i: nat :: i < n ==> ValueBit(value, i) == ValueBit(value', i)
    ensures ChangeBits(w, start, n, value) == ChangeBits(w, start, n, value')
  {
    if n > 0 {
      assert ValueBit(value, n - 1) == ValueBit(value', n - 1);
      ChangeBitsIgnoresHighBits(w, start, n - 1, value, value');
    }
  }

  /** Writing the same field value twice leaves the word as writing it once. */
  lemma ChangeBitsIdempotent(w: Word, start: nat, n: nat, value: bv8)
    requires InRange(start, n)
    ensures ChangeBits(ChangeBits(w, start, n, value), start, n, value) == ChangeBits(w, start, n, value)
  {
    var once := ChangeBits(w, start, n, value);
    forall p: nat | p < 32
      ensures WordBit(ChangeBits(once, start, n, value), p) ==
              if start <= p < start + n then ValueBit(value, p - start) else WordBit(w, p)
    {
      ChangeBitsSpec(once, start, n, value, p);
      ChangeBitsSpec(w, start, n, value, p);
    }
    ChangeBitsUnique(w, start, n, value, ChangeBits(once, start, n, value));
  }

  /** Bit `p` after updating two disjoint fields is the same in either order. */
  lemma ChangeBitsCommuteBit(w: Word, s1: nat, n1: nat, v1: bv8, s2: nat, n2: nat, v2: bv8, p: nat)
    requires InRange(s1, n1) && InRange(s2, n2) && p < 32
    requires s1 + n1 <= s2 || s2 + n2 <= s1
    ensures WordBit(ChangeBits(ChangeBits(w, s1, n1, v1), s2, n2, v2), p) ==
            WordBit(ChangeBits(ChangeBits(w, s2, n2, v2), s1, n1, v1), p)
  {
    ChangeBitsSpec(ChangeBits(w, s1, n1, v1), s2, n2, v2, p);
    ChangeBitsSpec(w, s1, n1, v1, p);
    ChangeBitsSpec(ChangeBits(w, s2, n2, v2), s1, n1, v1, p);
    ChangeBitsSpec(w, s2, n2, v2, p);
  }

  /** Updates of two disjoint fields commute: each leaves the other field as it found it. */
  lemma ChangeBitsCommute(w: Word, s1: nat, n1: nat, v1: bv8, s2: nat, n2: nat, v2: bv8)
    requires InRange(s1, n1) && InRange(s2, n2)
    requires s1 + n1 <= s2 || s2 + n2 <= s1
    ensures ChangeBits(ChangeBits(w, s1, n1, v1), s2, n2, v2) == ChangeBits(ChangeBits(w, s2, n2, v2), s1, n1, v1)
  {
    var a := ChangeBits(ChangeBits(w, s1, n1, v1), s2, n2, v2);
    var b := ChangeBits(ChangeBits(w, s2, n2, v2), s1, n1, v1);
    forall p: nat | p < 32
      ensures WordBit(a, p) == WordBit(b, p)
    {
      ChangeBitsCommuteBit(w, s1, n1, v1, s2, n2, v2, p);
    }
    WordBitsDetermine(a, b);
  }

  /** 2 to the power `n`. */
  function Pow2(n: nat): (p: nat)
    ensures p >= 1
  {
    if n == 0 then 1 else 2 * Pow2(n - 1)
  }

  /** `value` fits an `n`-bit field: none of its bits from `n` on is set. */
  predicate Fits(value: bv8, n: nat)
  {
    forall i: nat :: n <= i < 8 ==> !ByteBit(value, i)
  }

  /** A byte below `2^n` fits `n` bits. */
  lemma FitsOfBound(value: bv8, n: nat)
    requires value as int < Pow2(n)
    ensures Fits(value, n)
  {
    forall i: nat | n <= i < 8
      ensures !ByteBit(value, i)
    {
      Pow2Monotone(n, i);
      if i == 0 {
      } else if i == 1 {
        assert value < 2;
      } else if i == 2 {
        assert value < 4;
      } else if i == 3 {
        assert value < 8;
      } else if i == 4 {
        assert value < 16;
      } else if i == 5 {
        assert value < 32;
      } else if i == 6 {
        assert value < 64;
      } else {
        assert value < 128;
      }
    }
  }

  /** Powers of two grow with the exponent. */
  lemma {:induction false} Pow2Monotone(m: nat, n: nat)
    requires m <= n
    ensures Pow2(m) <= Pow2(n)
  {
    if m < n {
      Pow2Monotone(m, n - 1);
    }
  }

  /** The `n`-bit field at `start` read back as a byte: bit `i` of the result is bit `start + i` of the word. */
  function FieldBits(w: Word, start: nat, n: nat): bv8
    requires InRange(start, n) && n <= 8
  {
    if n == 0 then 0 else SetByteBit(FieldBits(w, start, n - 1), n - 1, WordBit(w, start + (n - 1)))
  }

  /** Bit `i` of the field read back is bit `start + i` of the word below `n`, and clear from `n` on. */
  lemma {:induction false} FieldBitsSpec(w: Word, start: nat, n: nat, i: nat)
    requires InRange(start, n) && n <= 8 && i < 8
    ensures ByteBit(FieldBits(w, start, n), i) == (i < n && WordBit(w, start + i))
  {
    if n == 0 {
      assert FieldBits(w, start, n) == 0;
    } else {
      SetByteBitSpec(FieldBits(w, start, n - 1), n - 1, WordBit(w, start + (n - 1)), i);
      if i != n - 1 {
        FieldBitsSpec(w, start, n - 1, i);
      }
    }
  }

  /** A value that fits the field reads back unchanged from the word the mutator produced. */
  lemma FieldRoundTrip(w: Word, start: nat, n: nat, value: bv8)
    requires InRange(start, n) && n <= 8 && Fits(value, n)
    ensures FieldBits(ChangeBits(w, start, n, value), start, n) == value
  {
    var r := FieldBits(ChangeBits(w, start, n, value), start, n);
    forall i: nat | i < 8
      ensures ByteBit(r, i) == ByteBit(value, i)
    {
      FieldBitsSpec(ChangeBits(w, start, n, value), start, n, i);
      if i < n {
        ChangeBitsSpec(w, start, n, value, start + i);
      }
    }
    ByteBitsDetermine(r, value);
  }
}
