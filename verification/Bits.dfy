// The bits that the driver reads out of a machine word, as parts of the number the word is. A
// word is put together from pieces of exact width, whose numbers are its digits.
module Bits {

  // The digits of a number, for the places at which the driver cuts words.
  lemma DigitsAt(n: nat, hi: nat, b: nat, lo: nat, p: nat, q: nat)
    requires p > 0 && q > 0 && n == (hi * q + b) * p + lo && lo < p && b < q
    ensures n / p == hi * q + b
    ensures n % p == lo
    ensures n / p % q == b
  {
    Quotient(n, hi * q + b, lo, p);
    Quotient(hi * q + b, hi, b, q);
  }

  lemma Quotient(n: nat, hi: nat, lo: nat, p: nat)
    requires p > 0 && n == hi * p + lo && lo < p
    ensures n / p == hi && n % p == lo
  {
    assert n == p * (n / p) + n % p;
    SameQuotient(p, hi, lo, n / p, n % p);
  }

  lemma SameQuotient(p: nat, q: nat, r: nat, q': nat, r': nat)
    requires r < p && r' < p && q * p + r == p * q' + r'
    ensures q == q' && r == r'
  {
    if q < q' {
      Next(p, q, q');
    } else if q > q' {
      Next(p, q', q);
    }
  }

  lemma Next(p: nat, q: nat, q': nat)
    requires q < q'
    ensures p * q + p <= p * q'
  {
    var d := q' - q - 1;
    assert p * q' == p * q + p + p * d by { assert q' == q + 1 + d; }
  }

  lemma OneBit(b: bv1)
    ensures b as nat == if b == 1 then 1 else 0
  {
  }

  lemma Packed0(hi: bv63, lo: bv1)
    ensures (((hi as bv64) << 1) | (lo as bv64)) as nat == hi as nat * 0x2 + lo as nat
    ensures lo as nat < 0x2
  {
  }

  lemma Unpacked0(x: bv64, hi: bv63, lo: bv1)
    requires hi == (x >> 1) as bv63 && lo == (x & 0x1) as bv1
    ensures x == ((hi as bv64) << 1) | (lo as bv64)
  {
  }

  lemma Sum0(x: bv64, hi: bv63, lo: bv1)
    requires x == ((hi as bv64) << 1) | (lo as bv64)
    ensures x as nat == hi as nat * 0x2 + lo as nat
    ensures lo as nat < 0x2
  {
    Packed0(hi, lo);
  }

  // Bit 0, and the bits above it.
  lemma Part0(x: bv64, hi: bv63, lo: bv1)
    requires x == ((hi as bv64) << 1) | (lo as bv64)
    ensures x as nat % 0x2 == lo as nat && x as nat / 0x2 == hi as nat
  {
    Sum0(x, hi, lo);
    Quotient(x as nat, hi as nat, lo as nat, 0x2);
  }

  lemma Packed2(hi: bv61, b: bv1, lo: bv2)
    ensures (((hi as bv64) << 3) | ((b as bv64) << 2) | (lo as bv64)) as nat
            == (hi as nat * 0x2 + b as nat) * 0x4 + lo as nat
    ensures b as nat < 0x2 && lo as nat < 0x4
  {
  }

  lemma Unpacked2(x: bv64, hi: bv61, b: bv1, lo: bv2)
    requires hi == (x >> 3) as bv61 && b == ((x >> 2) & 0x1) as bv1 && lo == (x & 0x3) as bv2
    ensures x == ((hi as bv64) << 3) | ((b as bv64) << 2) | (lo as bv64)
  {
  }

  lemma Sum2(x: bv64, hi: bv61, b: bv1, lo: bv2)
    requires x == ((hi as bv64) << 3) | ((b as bv64) << 2) | (lo as bv64)
    ensures x as nat == (hi as nat * 0x2 + b as nat) * 0x4 + lo as nat
    ensures b as nat < 0x2 && lo as nat < 0x4
  {
    Packed2(hi, b, lo);
  }

  // Bit 2.
  lemma Part2(x: bv64, hi: bv61, b: bv1, lo: bv2)
    requires x == ((hi as bv64) << 3) | ((b as bv64) << 2) | (lo as bv64)
    ensures x as nat / 0x4 % 0x2 == b as nat
  {
    Sum2(x, hi, b, lo);
    DigitsAt(x as nat, hi as nat, b as nat, lo as nat, 0x4, 0x2);
  }

  lemma Packed5(hi: bv26, b: bv1, lo: bv5)
    ensures (((hi as bv32) << 6) | ((b as bv32) << 5) | (lo as bv32)) as nat
            == (hi as nat * 0x2 + b as nat) * 0x20 + lo as nat
    ensures b as nat < 0x2 && lo as nat < 0x20
  {
  }

  lemma Unpacked5(x: bv32, hi: bv26, b: bv1, lo: bv5)
    requires hi == (x >> 6) as bv26 && b == ((x >> 5) & 0x1) as bv1 && lo == (x & 0x1F) as bv5
    ensures x == ((hi as bv32) << 6) | ((b as bv32) << 5) | (lo as bv32)
  {
  }

  lemma Sum5(x: bv32, hi: bv26, b: bv1, lo: bv5)
    requires x == ((hi as bv32) << 6) | ((b as bv32) << 5) | (lo as bv32)
    ensures x as nat == (hi as nat * 0x2 + b as nat) * 0x20 + lo as nat
    ensures b as nat < 0x2 && lo as nat < 0x20
  {
    Packed5(hi, b, lo);
  }

  // Bit 5 of a 32-bit word.
  lemma Part5(x: bv32, hi: bv26, b: bv1, lo: bv5)
    requires x == ((hi as bv32) << 6) | ((b as bv32) << 5) | (lo as bv32)
    ensures x as nat / 0x20 % 0x2 == b as nat
  {
    Sum5(x, hi, b, lo);
    DigitsAt(x as nat, hi as nat, b as nat, lo as nat, 0x20, 0x2);
  }

  lemma Packed55(hi: bv8, b: bv1, lo: bv55)
    ensures (((hi as bv64) << 56) | ((b as bv64) << 55) | (lo as bv64)) as nat
            == (hi as nat * 0x2 + b as nat) * 0x80000000000000 + lo as nat
    ensures b as nat < 0x2 && lo as nat < 0x80000000000000
  {
  }

  lemma Unpacked55(x: bv64, hi: bv8, b: bv1, lo: bv55)
    requires hi == (x >> 56) as bv8 && b == ((x >> 55) & 0x1) as bv1 && lo == (x & 0x7FFFFFFFFFFFFF) as bv55
    ensures x == ((hi as bv64) << 56) | ((b as bv64) << 55) | (lo as bv64)
  {
  }

  lemma Sum55(x: bv64, hi: bv8, b: bv1, lo: bv55)
    requires x == ((hi as bv64) << 56) | ((b as bv64) << 55) | (lo as bv64)
    ensures x as nat == (hi as nat * 0x2 + b as nat) * 0x80000000000000 + lo as nat
    ensures b as nat < 0x2 && lo as nat < 0x80000000000000
  {
    Packed55(hi, b, lo);
  }

  // Bit 55.
  lemma Part55(x: bv64, hi: bv8, b: bv1, lo: bv55)
    requires x == ((hi as bv64) << 56) | ((b as bv64) << 55) | (lo as bv64)
    ensures x as nat / 0x80000000000000 % 0x2 == b as nat
  {
    Sum55(x, hi, b, lo);
    DigitsAt(x as nat, hi as nat, b as nat, lo as nat, 0x80000000000000, 0x2);
  }

  lemma Packed44(hi: bv19, b: bv13, lo: bv32)
    ensures (((hi as bv64) << 45) | ((b as bv64) << 32) | (lo as bv64)) as nat
            == (hi as nat * 0x2000 + b as nat) * 0x100000000 + lo as nat
    ensures b as nat < 0x2000 && lo as nat < 0x100000000
  {
  }

  lemma Unpacked44(x: bv64, hi: bv19, b: bv13, lo: bv32)
    requires hi == (x >> 45) as bv19 && b == ((x >> 32) & 0x1FFF) as bv13 && lo == (x & 0xFFFFFFFF) as bv32
    ensures x == ((hi as bv64) << 45) | ((b as bv64) << 32) | (lo as bv64)
  {
  }

  lemma Sum44(x: bv64, hi: bv19, b: bv13, lo: bv32)
    requires x == ((hi as bv64) << 45) | ((b as bv64) << 32) | (lo as bv64)
    ensures x as nat == (hi as nat * 0x2000 + b as nat) * 0x100000000 + lo as nat
    ensures b as nat < 0x2000 && lo as nat < 0x100000000
  {
    Packed44(hi, b, lo);
  }

  // Bits 44:32.
  lemma Part44(x: bv64, hi: bv19, b: bv13, lo: bv32)
    requires x == ((hi as bv64) << 45) | ((b as bv64) << 32) | (lo as bv64)
    ensures x as nat / 0x100000000 % 0x2000 == b as nat
  {
    Sum44(x, hi, b, lo);
    DigitsAt(x as nat, hi as nat, b as nat, lo as nat, 0x100000000, 0x2000);
  }

  lemma Packed30(hi: bv33, lo: bv31)
    ensures (((hi as bv64) << 31) | (lo as bv64)) as nat == hi as nat * 0x80000000 + lo as nat
    ensures lo as nat < 0x80000000
  {
  }

  lemma Unpacked30(x: bv64, hi: bv33, lo: bv31)
    requires hi == (x >> 31) as bv33 && lo == (x & 0x7FFFFFFF) as bv31
    ensures x == ((hi as bv64) << 31) | (lo as bv64)
  {
  }

  lemma Sum30(x: bv64, hi: bv33, lo: bv31)
    requires x == ((hi as bv64) << 31) | (lo as bv64)
    ensures x as nat == hi as nat * 0x80000000 + lo as nat
    ensures lo as nat < 0x80000000
  {
    Packed30(hi, lo);
  }

  // Bits 30:0, and the bits above them.
  lemma Part30(x: bv64, hi: bv33, lo: bv31)
    requires x == ((hi as bv64) << 31) | (lo as bv64)
    ensures x as nat % 0x80000000 == lo as nat && x as nat / 0x80000000 == hi as nat
  {
    Sum30(x, hi, lo);
    Quotient(x as nat, hi as nat, lo as nat, 0x80000000);
  }

  lemma Packed31(hi: bv32, lo: bv32)
    ensures (((hi as bv64) << 32) | (lo as bv64)) as nat == hi as nat * 0x100000000 + lo as nat
    ensures lo as nat < 0x100000000
  {
  }

  lemma Unpacked31(x: bv64, hi: bv32, lo: bv32)
    requires hi == (x >> 32) as bv32 && lo == (x & 0xFFFFFFFF) as bv32
    ensures x == ((hi as bv64) << 32) | (lo as bv64)
  {
  }

  lemma Sum31(x: bv64, hi: bv32, lo: bv32)
    requires x == ((hi as bv64) << 32) | (lo as bv64)
    ensures x as nat == hi as nat * 0x100000000 + lo as nat
    ensures lo as nat < 0x100000000
  {
    Packed31(hi, lo);
  }

  // Bits 31:0 and 63:32.
  lemma Part31(x: bv64, hi: bv32, lo: bv32)
    requires x == ((hi as bv64) << 32) | (lo as bv64)
    ensures x as nat % 0x100000000 == lo as nat && x as nat / 0x100000000 == hi as nat
  {
    Sum31(x, hi, lo);
    Quotient(x as nat, hi as nat, lo as nat, 0x100000000);
  }

  lemma Tests0(x: bv64, lo: bv1)
    requires lo == (x & 1) as bv1
    ensures x & 1 != 0 <==> lo == 1
  {
  }

  lemma Bit0(x: bv64)
    ensures x & 1 != 0 <==> x as nat % 2 == 1
  {
    var hi, lo := (x >> 1) as bv63, (x & 1) as bv1;
    Unpacked0(x, hi, lo);
    Tests0(x, lo);
    OneBit(lo);
    Part0(x, hi, lo);
  }

  lemma Tests2(x: bv64, b: bv1)
    requires b == ((x >> 2) & 1) as bv1
    ensures x & 0x4 != 0 <==> b == 1
    ensures (x >> 2) & 1 == 1 <==> b == 1
  {
  }

  lemma Bit2(x: bv64)
    ensures x & 0x4 != 0 <==> x as nat / 0x4 % 2 == 1
    ensures (x >> 2) & 1 == 1 <==> x as nat / 0x4 % 2 == 1
  {
    var hi, b, lo := (x >> 3) as bv61, ((x >> 2) & 1) as bv1, (x & 0x3) as bv2;
    Unpacked2(x, hi, b, lo);
    Tests2(x, b);
    OneBit(b);
    Part2(x, hi, b, lo);
  }

  lemma Tests5(x: bv32, b: bv1)
    requires b == ((x >> 5) & 1) as bv1
    ensures x & 0x20 != 0 <==> b == 1
    ensures (x >> 5) & 1 == 1 <==> b == 1
  {
  }

  lemma Bit5(x: bv32)
    ensures x & 0x20 != 0 <==> x as nat / 0x20 % 2 == 1
    ensures (x >> 5) & 1 == 1 <==> x as nat / 0x20 % 2 == 1
  {
    var hi, b, lo := (x >> 6) as bv26, ((x >> 5) & 1) as bv1, (x & 0x1F) as bv5;
    Unpacked5(x, hi, b, lo);
    Tests5(x, b);
    OneBit(b);
    Part5(x, hi, b, lo);
  }

  lemma Tests55(x: bv64, b: bv1)
    requires b == ((x >> 55) & 1) as bv1
    ensures x & 0x80000000000000 != 0 <==> b == 1
    ensures (x >> 55) & 1 == 1 <==> b == 1
  {
  }

  lemma Bit55(x: bv64)
    ensures x & 0x80000000000000 != 0 <==> x as nat / 0x80000000000000 % 2 == 1
    ensures (x >> 55) & 1 == 1 <==> x as nat / 0x80000000000000 % 2 == 1
  {
    var hi, b, lo := (x >> 56) as bv8, ((x >> 55) & 1) as bv1, (x & 0x7FFFFFFFFFFFFF) as bv55;
    Unpacked55(x, hi, b, lo);
    Tests55(x, b);
    OneBit(b);
    Part55(x, hi, b, lo);
  }

  lemma Field44(x: bv64)
    ensures ((x >> 32) & 0x1FFF) as nat == x as nat / 0x1_0000_0000 % 0x2000
  {
    var hi, b, lo := (x >> 45) as bv19, ((x >> 32) & 0x1FFF) as bv13, (x & 0xFFFF_FFFF) as bv32;
    Unpacked44(x, hi, b, lo);
    Part44(x, hi, b, lo);
    Wide13(b);
    assert (x >> 32) & 0x1FFF == b as bv64;
  }

  lemma Wide13(b: bv13)
    ensures b as bv64 as nat == b as nat
  {
  }

  lemma Low31(x: bv64)
    ensures ((x & 0x7FFF_FFFF) as bv32) as nat == x as nat % 0x8000_0000
  {
    var hi, lo := (x >> 31) as bv33, (x & 0x7FFF_FFFF) as bv31;
    Unpacked30(x, hi, lo);
    Part30(x, hi, lo);
    Wide31(lo);
    assert (x & 0x7FFF_FFFF) as bv32 == lo as bv32;
  }

  lemma Wide31(b: bv31)
    ensures b as bv32 as nat == b as nat
  {
  }

  lemma Halves(x: bv64)
    ensures ((x & 0xFFFF_FFFF) as bv32) as nat == x as nat % 0x1_0000_0000
    ensures ((x >> 32) as bv32) as nat == x as nat / 0x1_0000_0000
  {
    var hi, lo := (x >> 32) as bv32, (x & 0xFFFF_FFFF) as bv32;
    Unpacked31(x, hi, lo);
    Part31(x, hi, lo);
  }

  lemma Packed8(hi: bv8, lo: bv8)
    ensures (((hi as bv16) << 8) | (lo as bv16)) as nat == hi as nat * 0x100 + lo as nat
    ensures lo as nat < 0x100
  {
  }

  lemma Unpacked8(x: bv16, hi: bv8, lo: bv8)
    requires hi == (x >> 8) as bv8 && lo == (x & 0xFF) as bv8
    ensures x == ((hi as bv16) << 8) | (lo as bv16)
  {
  }

  lemma Sum8(x: bv16, hi: bv8, lo: bv8)
    requires x == ((hi as bv16) << 8) | (lo as bv16)
    ensures x as nat == hi as nat * 0x100 + lo as nat
    ensures lo as nat < 0x100
  {
    Packed8(hi, lo);
  }

  // Bytes of a 16-bit word.
  lemma Part8(x: bv16, hi: bv8, lo: bv8)
    requires x == ((hi as bv16) << 8) | (lo as bv16)
    ensures x as nat % 0x100 == lo as nat && x as nat / 0x100 == hi as nat
  {
    Sum8(x, hi, lo);
    Quotient(x as nat, hi as nat, lo as nat, 0x100);
  }

  lemma Packed16(hi: bv16, lo: bv16)
    ensures (((hi as bv32) << 16) | (lo as bv32)) as nat == hi as nat * 0x10000 + lo as nat
    ensures lo as nat < 0x10000
  {
  }

  lemma Unpacked16(x: bv32, hi: bv16, lo: bv16)
    requires hi == (x >> 16) as bv16 && lo == (x & 0xFFFF) as bv16
    ensures x == ((hi as bv32) << 16) | (lo as bv32)
  {
  }

  lemma Sum16(x: bv32, hi: bv16, lo: bv16)
    requires x == ((hi as bv32) << 16) | (lo as bv32)
    ensures x as nat == hi as nat * 0x10000 + lo as nat
    ensures lo as nat < 0x10000
  {
    Packed16(hi, lo);
  }

  // Halves of a 32-bit word.
  lemma Part16(x: bv32, hi: bv16, lo: bv16)
    requires x == ((hi as bv32) << 16) | (lo as bv32)
    ensures x as nat % 0x10000 == lo as nat && x as nat / 0x10000 == hi as nat
  {
    Sum16(x, hi, lo);
    Quotient(x as nat, hi as nat, lo as nat, 0x10000);
  }

  // Words that are the same number are the same word.
  lemma Same8(a: bv8, b: bv8)
    requires a as nat == b as nat
    ensures a == b
  {
  }

  lemma Same16(a: bv16, b: bv16)
    requires a as nat == b as nat
    ensures a == b
  {
    var ah, al, bh, bl := (a >> 8) as bv8, (a & 0xFF) as bv8, (b >> 8) as bv8, (b & 0xFF) as bv8;
    Unpacked8(a, ah, al);
    Unpacked8(b, bh, bl);
    Part8(a, ah, al);
    Part8(b, bh, bl);
    Same8(ah, bh);
    Same8(al, bl);
  }

  lemma Same32(a: bv32, b: bv32)
    requires a as nat == b as nat
    ensures a == b
  {
    var ah, al, bh, bl := (a >> 16) as bv16, (a & 0xFFFF) as bv16, (b >> 16) as bv16, (b & 0xFFFF) as bv16;
    Unpacked16(a, ah, al);
    Unpacked16(b, bh, bl);
    Part16(a, ah, al);
    Part16(b, bh, bl);
    Same16(ah, bh);
    Same16(al, bl);
  }
}
