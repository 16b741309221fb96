// Bytes, two-byte signed numbers, and single bits of a byte: the low-level
// vocabulary shared by the regular-expression compiler and matcher.
module Bytes {

  type byte = x: int | 0 <= x < 256

  // The byte at position i, or 0 when i lies outside the buffer.
  function At(code: seq<byte>, i: int): byte {
    if 0 <= i < |code| then code[i] else 0
  }

  // STORE_NUMBER: the low byte, then the (arithmetically shifted) high byte.
  function StoreNumber(n: int): (s: seq<byte>)
    ensures |s| == 2
  {
    [n % 256, (n / 256) % 256]
  }

  function SignExtend(b: byte): int {
    if b < 128 then b else b - 256
  }

  // EXTRACT_NUMBER: the second byte carries the sign.
  function ExtractNumber(lo: byte, hi: byte): int {
    lo + SignExtend(hi) * 256
  }

  // A stored number reads back as itself exactly when it fits sixteen signed bits.
  lemma NumberRoundTrip(n: int)
    ensures ExtractNumber(StoreNumber(n)[0], StoreNumber(n)[1]) == n <==> -32768 <= n < 32768
  {
    var q, m := n / 256, (n / 256) % 256;
    assert n == q * 256 + n % 256;
  }

  // Bit k of a number, bit 0 being the lowest.
  predicate Bit(b: nat, k: nat)
    decreases k
  {
    if k == 0 then b % 2 == 1 else Bit(b / 2, k - 1)
  }

  function Power2(n: nat): (r: nat)
    ensures r > 0
  {
    if n == 0 then 1 else 2 * Power2(n - 1)
  }

  // b | 1 << k
  function SetBit(b: nat, k: nat): (r: nat)
    decreases k
  {
    if k == 0 then (if b % 2 == 1 then b else b + 1) else 2 * SetBit(b / 2, k - 1) + b % 2
  }

  lemma {:induction false} SetBitSetsOnlyThatBit(b: nat, k: nat, j: nat)
    ensures Bit(SetBit(b, k), j) <==> j == k || Bit(b, j)
    decreases k
  {
    if k > 0 && j > 0 {
      SetBitSetsOnlyThatBit(b / 2, k - 1, j - 1);
    }
  }

  lemma {:induction false} SetBitStaysInRange(b: nat, k: nat, n: nat)
    requires k < n && b < Power2(n)
    ensures SetBit(b, k) < Power2(n)
    decreases k
  {
    var half, rest := b / 2, b % 2;
    assert b == 2 * half + rest;
    var p := Power2(n - 1);
    assert Power2(n) == 2 * p;
    if k > 0 {
      SetBitStaysInRange(half, k - 1, n - 1);
    }
  }

  lemma {:induction false} ZeroHasNoBits(k: nat)
    ensures !Bit(0, k)
  {
    if k > 0 { ZeroHasNoBits(k - 1); }
  }

  // Membership of a character in a bitmap of |map| bytes; characters past its end are absent.
  predicate InMap(bits: seq<byte>, c: byte) {
    c < |bits| * 8 && Bit(bits[c / 8], c % 8)
  }

  // SET_LIST_BIT: the byte value after the bit of character c has been set.
  function WithBit(b: byte, c: byte): (r: byte)
    ensures forall j: nat :: Bit(r, j) <==> j == c % 8 || Bit(b, j)
  {
    assert Power2(8) == 256;
    SetBitStaysInRange(b, c % 8, 8);
    assert forall j: nat :: Bit(SetBit(b, c % 8), j) <==> j == c % 8 || Bit(b, j) by {
      forall j: nat ensures Bit(SetBit(b, c % 8), j) <==> j == c % 8 || Bit(b, j) {
        SetBitSetsOnlyThatBit(b, c % 8, j);
      }
    }
    SetBit(b, c % 8)
  }
}
