/**
 * Byte buffers and the big-endian integer reads and writes that the command
 * class codecs use (Node's Buffer readUIntBE/writeUIntBE, readIntBE/writeIntBE,
 * readUInt16BE/writeUInt16BE).
 */
module Bytes {
  import opened Wrappers

  type Byte = b: int | 0 <= b < 256

  /** 256^n, the number of distinct values an n-byte field can hold. */
  function Pow256(n: nat): (r: nat)
    ensures r >= 1
  {
    if n == 0 then 1 else 256 * Pow256(n - 1)
  }

  /** The unsigned big-endian value of a byte string. */
  function UIntBE(s: seq<Byte>): (r: nat)
    ensures r < Pow256(|s|)
  {
    if |s| == 0 then 0 else UIntBE(s[..|s| - 1]) * 256 + s[|s| - 1]
  }

  /** The n-byte big-endian representation of v (v must fit). */
  function EncodeUIntBE(v: nat, n: nat): (r: seq<Byte>)
    requires v < Pow256(n)
    ensures |r| == n
  {
    if n == 0 then [] else EncodeUIntBE(v / 256, n - 1) + [v % 256]
  }

  lemma {:induction false} UIntBERoundTrip(v: nat, n: nat)
    requires v < Pow256(n)
    ensures UIntBE(EncodeUIntBE(v, n)) == v
  {
    if n > 0 {
      var e := EncodeUIntBE(v, n);
      assert e[..n - 1] == EncodeUIntBE(v / 256, n - 1);
      UIntBERoundTrip(v / 256, n - 1);
    }
  }

  lemma {:induction false} EncodeUIntBERoundTrip(s: seq<Byte>)
    ensures EncodeUIntBE(UIntBE(s), |s|) == s
  {
    if |s| > 0 {
      var init := s[..|s| - 1];
      var v := UIntBE(s);
      assert v / 256 == UIntBE(init) && v % 256 == s[|s| - 1];
      EncodeUIntBERoundTrip(init);
    }
  }

  /** The signed (two's complement) big-endian value of a byte string. */
  function IntBE(s: seq<Byte>): (r: int)
    requires |s| > 0
    ensures -Half(|s|) <= r < Half(|s|)
  {
    PowHalf(|s|);
    var u := UIntBE(s);
    if u >= Half(|s|) then u - Pow256(|s|) else u
  }

  /** Half of 256^n: the bound of an n-byte signed field. */
  function Half(n: nat): int { Pow256(n) / 2 }

  lemma PowHalf(n: nat)
    requires n > 0
    ensures Pow256(n) == 2 * (Pow256(n) / 2)
  {
  }

  /** The n-byte two's complement representation of v (v must fit). */
  function EncodeIntBE(v: int, n: nat): (r: seq<Byte>)
    requires n > 0 && -Half(n) <= v < Half(n)
    ensures |r| == n
  {
    if v >= 0 then EncodeUIntBE(v, n) else EncodeUIntBE(v + Pow256(n), n)
  }

  lemma IntBERoundTrip(v: int, n: nat)
    requires n > 0 && -Half(n) <= v < Half(n)
    ensures IntBE(EncodeIntBE(v, n)) == v
  {
    PowHalf(n);
    if v >= 0 {
      UIntBERoundTrip(v, n);
    } else {
      UIntBERoundTrip(v + Pow256(n), n);
    }
  }

  /**
   * Buffer.readUIntBE(off, n): the source throws a RangeError when the n
   * bytes are not all inside the buffer; the model answers None.
   */
  function ReadUIntBE(p: seq<Byte>, off: nat, n: nat): (r: Option<nat>)
    ensures r.Some? <==> off + n <= |p|
    ensures r.Some? ==> r.value < Pow256(n)
  {
    if off + n <= |p| then Some(UIntBE(p[off..off + n])) else None
  }

  /** Buffer.readIntBE(off, n), with the same range rule. */
  function ReadIntBE(p: seq<Byte>, off: nat, n: nat): (r: Option<int>)
    requires n > 0
    ensures r.Some? <==> off + n <= |p|
  {
    if off + n <= |p| then Some(IntBE(p[off..off + n])) else None
  }

  /** The byte at index i, if there is one (JavaScript reads `undefined` past the end). */
  function At(p: seq<Byte>, i: nat): (r: Option<Byte>)
    ensures r.Some? <==> i < |p|
    ensures r.Some? ==> r.value == p[i]
  {
    if i < |p| then Some(p[i]) else None
  }

  /** Two-byte big-endian encoding, as Buffer.writeUInt16BE. */
  function U16BE(v: nat): (r: seq<Byte>)
    requires v < 0x10000
    ensures |r| == 2 && UIntBE(r) == v
  {
    UIntBERoundTrip(v, 2);
    EncodeUIntBE(v, 2)
  }

  /** 2^k. */
  function Pow2(k: nat): (r: nat)
    ensures r >= 1
  {
    if k == 0 then 1 else 2 * Pow2(k - 1)
  }

  /** The low n bits of `a & m`, built from the lowest bit up. */
  function AndBits(a: nat, m: nat, n: nat): (r: nat)
    ensures r < Pow2(n) && r <= m
  {
    if n == 0 then 0
    else (if a % 2 == 1 && m % 2 == 1 then 1 else 0) + 2 * AndBits(a / 2, m / 2, n - 1)
  }

  /** The low n bits of `a | m`, built from the lowest bit up. */
  function OrBits(a: nat, m: nat, n: nat): (r: nat)
    ensures r < Pow2(n)
    ensures m < Pow2(n) ==> r >= m
  {
    if n == 0 then 0
    else (if a % 2 == 1 || m % 2 == 1 then 1 else 0) + 2 * OrBits(a / 2, m / 2, n - 1)
  }

  /** Bitwise AND of a byte with a mask. */
  function And(b: int, m: int): (r: nat)
    requires 0 <= b < 256 && 0 <= m < 256
    ensures r < 256 && r <= m
  {
    AndBits(b, m, 8)
  }

  /** Bitwise OR of two bytes. */
  function Or(a: int, b: int): (r: nat)
    requires 0 <= a < 256 && 0 <= b < 256
    ensures r < 256 && r >= b
  {
    OrBits(a, b, 8)
  }

  /** Whether bit `mask` is set in `b` (JavaScript's `!!(b & mask)`). */
  predicate Flag(b: int, m: int)
    requires 0 <= b < 256 && 0 <= m < 256
  {
    And(b, m) != 0
  }

  /** The low k bits of a, that is a mod 2^k. */
  function Low(a: nat, k: nat): (r: nat)
    ensures r < Pow2(k)
  {
    if k == 0 then 0 else a % 2 + 2 * Low(a / 2, k - 1)
  }

  /** Bit k of a. */
  predicate Bit(a: nat, k: nat) {
    if k == 0 then a % 2 == 1 else Bit(a / 2, k - 1)
  }

  lemma {:induction false} AndZero(a: nat, n: nat)
    ensures AndBits(a, 0, n) == 0
  {
    if n > 0 {
      AndZero(a / 2, n - 1);
    }
  }

  /** The number whose k low bits are set, 2^k - 1. */
  function Ones(k: nat): (r: nat)
    ensures r == Pow2(k) - 1
  {
    if k == 0 then 0 else 1 + 2 * Ones(k - 1)
  }

  /** Masking with the k low bits keeps the k low bits. */
  lemma {:induction false} AndLowMask(a: nat, k: nat, n: nat)
    requires k <= n
    ensures AndBits(a, Ones(k), n) == Low(a, k)
  {
    if n == 0 {
    } else if k == 0 {
      AndZero(a, n);
    } else {
      AndLowMask(a / 2, k - 1, n - 1);
    }
  }

  /** Masking with bit k alone tests bit k. */
  lemma {:induction false} AndSingleBit(a: nat, k: nat, n: nat)
    requires k < n
    ensures AndBits(a, Pow2(k), n) != 0 <==> Bit(a, k)
  {
    if k == 0 {
      AndZero(a / 2, n - 1);
    } else {
      AndSingleBit(a / 2, k - 1, n - 1);
    }
  }

  /** Below 2^(k+1), bit k is set exactly from 2^k on. */
  lemma {:induction false} BitTop(a: nat, k: nat)
    requires a < 2 * Pow2(k)
    ensures Bit(a, k) <==> a >= Pow2(k)
  {
    if k > 0 {
      BitTop(a / 2, k - 1);
    }
  }

  /** Below 2^(k+1), the low k bits drop bit k. */
  lemma {:induction false} LowOfBelow(a: nat, k: nat)
    requires a < 2 * Pow2(k)
    ensures Low(a, k) == if a >= Pow2(k) then a - Pow2(k) else a
  {
    if k > 0 {
      LowOfBelow(a / 2, k - 1);
    }
  }

  /** One more low bit adds bit k's weight when bit k is set. */
  lemma {:induction false} LowSucc(a: nat, k: nat)
    ensures Low(a, k + 1) == Low(a, k) + (if Bit(a, k) then Pow2(k) else 0)
  {
    if k > 0 {
      LowSucc(a / 2, k - 1);
    }
  }

  /** Adding a number below 2^k to one whose k low bits are clear sets exactly those bits. */
  lemma {:induction false} LowOfSum(h: nat, s: nat, k: nat)
    requires Low(h, k) == 0 && s < Pow2(k)
    ensures Low(h + s, k) == s
  {
    if k > 0 {
      assert h % 2 == 0 && Low(h / 2, k - 1) == 0;
      assert (h + s) / 2 == h / 2 + s / 2;
      LowOfSum(h / 2, s / 2, k - 1);
    }
  }

  /** A number whose k low bits are clear shares no bit with one below 2^k. */
  lemma {:induction false} AndDisjoint(h: nat, s: nat, k: nat, n: nat)
    requires Low(h, k) == 0 && s < Pow2(k)
    ensures AndBits(h, s, n) == 0
  {
    if n == 0 {
    } else if k == 0 {
      AndZero(h, n);
    } else {
      assert h % 2 == 0 && Low(h / 2, k - 1) == 0;
      AndDisjoint(h / 2, s / 2, k - 1, n - 1);
    }
  }

  /** OR of two numbers with no common bit is their sum. */
  lemma {:induction false} OrDisjoint(a: nat, c: nat, n: nat)
    requires AndBits(a, c, n) == 0 && a < Pow2(n) && c < Pow2(n)
    ensures OrBits(a, c, n) == a + c
  {
    if n > 0 {
      OrDisjoint(a / 2, c / 2, n - 1);
    }
  }

  /** Bit 7 of a byte is set exactly when the byte is at least 0x80. */
  lemma FlagHighBit(b: Byte)
    ensures Flag(b, 0x80) <==> b >= 0x80
  {
    assert Pow2(7) == 0x80;
    AndSingleBit(b, 7, 8);
    BitTop(b, 7);
  }

  /** Bit 6 of a byte is set exactly when its low seven bits are at least 0x40. */
  lemma FlagBit6(b: Byte)
    ensures Flag(b, 0x40) <==> b % 0x80 >= 0x40
  {
    assert Pow2(6) == 0x40 && Pow2(7) == 0x80;
    AndSingleBit(b, 6, 8);
    LowSucc(b, 6);
    LowOfBelow(b, 7);
  }

  /** Masking with 0x7f keeps the low seven bits. */
  lemma AndLow7(b: Byte)
    ensures And(b, 0x7f) == b % 0x80
  {
    assert Pow2(7) == 0x80 && Ones(7) == 0x7f;
    AndLowMask(b, 7, 8);
    LowOfBelow(b, 7);
    assert Low(b, 7) == b % 0x80 by {
      if b >= 0x80 {
        assert b % 0x80 == b - 0x80;
      }
    }
  }

  /** Masking with 0x07 keeps the low three bits. */
  lemma AndLow3(b: Byte)
    ensures And(b, 0x07) == b % 8
  {
    assert Pow2(3) == 8 && Ones(3) == 7;
    AndLowMask(b, 3, 8);
    assert Low(b / 2 / 2, 1) == b / 2 / 2 % 2;
    assert Low(b, 3) == b % 8;
  }

  /** A byte is its low seven bits plus bit 7's weight. */
  lemma SplitHighBit(b: Byte)
    ensures b == b % 0x80 + (if b >= 0x80 then 0x80 else 0)
  {
  }

  /** A multiple of 8 has its three low bits clear. */
  lemma LowThreeOfMultiple(h: nat)
    requires h % 8 == 0
    ensures Low(h, 3) == 0
  {
    var q := h / 8;
    assert h == 8 * q && h / 2 == 4 * q && h / 2 / 2 == 2 * q;
    assert Low(h / 2 / 2, 1) == 0;
    assert Low(h / 2, 2) == 0;
  }

  /** Bits 7 and 6, each set or clear, OR as they add. */
  lemma OrHighBits(h: Byte, m: Byte)
    requires h == 0 || h == 0x80
    requires m < 0x80
    ensures Or(h, m) == h + m
  {
    assert Pow2(7) == 0x80 && Pow2(8) == 0x100;
    LowOfBelow(h, 7);
    AndDisjoint(h, m, 7, 8);
    OrDisjoint(h, m, 8);
  }

  /** OR with nothing leaves a number below 2^n as it is. */
  lemma {:induction false} OrNothing(a: nat, n: nat)
    requires a < Pow2(n)
    ensures OrBits(a, 0, n) == a
  {
    if n > 0 {
      OrNothing(a / 2, n - 1);
    }
  }

  /** OR with the single bit k adds 2^k exactly when bit k was clear. */
  lemma {:induction false} OrSingleBit(a: nat, k: nat, n: nat)
    requires k < n && a < Pow2(n)
    ensures OrBits(a, Pow2(k), n) == a + (if Bit(a, k) then 0 else Pow2(k))
  {
    if k == 0 {
      OrNothing(a / 2, n - 1);
    } else {
      assert Pow2(k) % 2 == 0 && Pow2(k) / 2 == Pow2(k - 1);
      OrSingleBit(a / 2, k - 1, n - 1);
    }
  }

  /** Setting bit 7 of a byte gives its low seven bits plus 0x80. */
  lemma SetHighBit(m: Byte)
    ensures Or(m, 0x80) == m % 0x80 + 0x80
  {
    assert Pow2(7) == 0x80 && Pow2(8) == 0x100;
    OrSingleBit(m, 7, 8);
    BitTop(m, 7);
    SplitHighBit(m);
  }

  /**
   * A flags byte: bits set above bit 2 (`high`, whose three low bits are
   * clear) ORed with a size below 8. The OR is the sum, and masking with 0x07
   * gives the size back.
   */
  lemma FlagsWithSize(high: Byte, size: nat)
    requires high % 8 == 0 && size < 8
    ensures Or(high, size) == high + size
    ensures And(high + size, 0x07) == size
  {
    assert Pow2(3) == 8 && Ones(3) == 7 && Pow2(8) == 0x100;
    LowThreeOfMultiple(high);
    AndDisjoint(high, size, 3, 8);
    OrDisjoint(high, size, 8);
    AndLowMask(high + size, 3, 8);
    LowOfSum(high, size, 3);
  }

  /** A sequence that agrees with `before` except for `bytes` at `offset` is `bytes` spliced in there. */
  lemma Spliced(before: seq<Byte>, after: seq<Byte>, offset: nat, bytes: seq<Byte>)
    requires |after| == |before| && offset + |bytes| <= |before|
    requires forall k :: 0 <= k < |after| ==>
               after[k] == if offset <= k < offset + |bytes| then bytes[k - offset] else before[k]
    ensures after == before[..offset] + bytes + before[offset + |bytes|..]
  {
  }

  /** A byte as an operand of a JavaScript bit operation: `undefined` past the end converts to 0. */
  function ByteOr0(p: seq<Byte>, i: int): (r: Byte)
    ensures 0 <= i < |p| ==> r == p[i]
    ensures !(0 <= i < |p|) ==> r == 0
  {
    if 0 <= i < |p| then p[i] else 0
  }

  /** Buffer.slice(k): the bytes from k on, empty when k is past the end. */
  function Drop(p: seq<Byte>, k: nat): (r: seq<Byte>)
    ensures k <= |p| ==> r == p[k..]
    ensures k > |p| ==> r == []
  {
    if k <= |p| then p[k..] else []
  }

  /** Math.min over counts. */
  function Min(a: nat, b: nat): (r: nat)
    ensures r <= a && r <= b && (r == a || r == b)
  {
    if a < b then a else b
  }
}
