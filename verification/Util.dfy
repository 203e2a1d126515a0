// hv/src/util.c: `ipow`, and the processor affinity masks that
// hv/src/main.c and hv/src/vmx.c build with it.
module Util {
  import opened Power

  // r * b^e is the power being computed; if that power is a 32-bit int, then so
  // is the product the loop forms next.
  lemma ProductFits(r: int, b: int, e: nat)
    requires r != 0 || b == 0
    requires e % 2 == 1
    requires Int32(r * Pow(b, e))
    ensures Int32(r * b)
  {
    if b != 0 {
      var h := (e - 1) / 2;
      PowSquare(b, h);
      assert e - 1 == 2 * h;
      SquarePowerPositive(b, h);
      assert r * Pow(b, e) == (r * b) * Pow(b, e - 1);
      Between(r * b, Pow(b, e - 1));
    }
  }

  lemma {:induction false} SquarePowerPositive(b: int, h: nat)
    requires b != 0
    ensures Pow(b * b, h) >= 1
  {
    if h > 0 {
      SquarePowerPositive(b, h - 1);
      assert b * b >= 1;
      MulMono(b * b, Pow(b * b, h - 1));
    }
  }

  // A factor that is multiplied by a positive number lies between 0 and the product.
  lemma Between(x: int, q: int)
    requires q >= 1
    ensures x >= 0 ==> x <= x * q
    ensures x <= 0 ==> x * q <= x
  {
  }

  // Likewise for the square, which is formed only while bits of e remain.
  lemma SquareFits(r: int, b: int, e: nat)
    requires r != 0 || b == 0
    requires e >= 2
    requires Int32(r * Pow(b, e))
    ensures Int32(b * b)
  {
    if b != 0 {
      PowDominates(b, e);
      AbsMul(r, Pow(b, e));
      MulMono(Abs(Pow(b, e)), Abs(r));
      assert Abs(r) * Abs(Pow(b, e)) == Abs(Pow(b, e)) * Abs(r);
      assert Abs(b * b) <= TWO_31;
      AbsMul(b, b);
      NoRootOfTwo31(Abs(b));
    }
  }

  lemma NoRootOfTwo31(a: nat)
    requires a * a <= TWO_31
    ensures a * a < TWO_31
  {
    if a >= 46341 {
      SquareMono(46341, a);
    } else {
      SquareMono(a, 46340);
    }
  }

  lemma SquareMono(a: nat, b: nat)
    requires a <= b
    ensures a * a <= b * b
  {
    assert a * a <= a * b <= b * b;
  }

  // The power left after one round of square-and-multiply.
  lemma PowHalve(b: int, e: nat)
    ensures Pow(b, e) == if e % 2 == 1 then b * Pow(b * b, e / 2) else Pow(b * b, e / 2)
  {
    PowSquare(b, e / 2);
    assert e == 2 * (e / 2) + e % 2;
  }

  lemma Associate(x: int, y: int, z: int)
    ensures (x * y) * z == x * (y * z)
  {
  }

  // What the loop variables result and base say about their values r and b
  // without wrap-around, when the power being computed is p.
  ghost predicate Tracks(p: int, r: int, b: int, result: int, base: int, overflowed: bool) {
    && result == Wrap32(r)
    && base == Wrap32(b)
    && (r != 0 || b == 0)
    && (!overflowed ==> Int32(r) && Int32(b))
    && (overflowed ==> !Int32(p))
  }

  lemma MultiplyTracks(p: int, r: int, b: int, e: nat, result: int, base: int, overflowed: bool)
    requires Tracks(p, r, b, result, base, overflowed)
    requires r * Pow(b, e) == p && e % 2 == 1
    ensures Tracks(p, r * b, b, Wrap32(result * base), base, overflowed || !Int32(result * base))
  {
    if Int32(p) { ProductFits(r, b, e); }
    WrapMul(r, b);
    assert r != 0 && b != 0 ==> r * b != 0;
  }

  lemma SquareTracks(p: int, r: int, b: int, result: int, base: int, overflowed: bool)
    requires Tracks(p, r, b, result, base, overflowed)
    requires Int32(p) ==> Int32(b * b)
    ensures Tracks(p, r, b * b, result, Wrap32(base * base), overflowed || !Int32(base * base))
  {
    WrapMul(b, b);
  }

  /** `ipow`, with `int` arithmetic wrapping at 32 bits. `overflowed` reports whether
      any `result *= base` or `base *= base` went outside the 32-bit range, which C
      leaves undefined: it does so exactly when the power itself has no 32-bit value.  */
  method Ipow(base: int, exp: int) returns (result: int, overflowed: bool)
    requires Int32(base) && Int32(exp) && 0 <= exp
    ensures result == Wrap32(Pow(base, exp))
    ensures overflowed <==> !Int32(Pow(base, exp))
  {
    result, overflowed := 1, false;
    var b, e := base, exp;
    ghost var p := Pow(base, exp);
    ghost var r', b' := 1, base;  // the values without wrap-around
    assert r' * Pow(b', e) == p;
    while true
      invariant 0 <= e
      invariant r' * Pow(b', e) == p
      invariant Tracks(p, r', b', result, b, overflowed)
      decreases e
    {
      PowHalve(b', e);
      Associate(r', b', Pow(b' * b', e / 2));
      if Int32(p) && e >= 2 { SquareFits(r', b', e); }
      if e % 2 == 1 {
        MultiplyTracks(p, r', b', e, result, b, overflowed);
        overflowed := overflowed || !Int32(result * b);
        result := Wrap32(result * b);
        r' := r' * b';
      }
      e := e / 2;
      if e == 0 {
        break;
      }
      SquareTracks(p, r', b', result, b, overflowed);
      overflowed := overflowed || !Int32(b * b);
      b := Wrap32(b * b);
      b' := b' * b';
    }
    assert r' == p;
  }

  // The KAFFINITY value `ipow(2, i)` becomes: a 32-bit int sign-extended to 64 bits.
  ghost function AffinityMask(i: nat): (m: nat)
    ensures m < TWO_64
  {
    Wrap32(Pow(2, i)) % TWO_64
  }

  // Processor j is in an affinity mask when bit j of the mask is set.
  ghost predicate InMask(mask: nat, j: nat) {
    Pow2Positive(j);
    j < 64 && (mask / Pow(2, j)) % 2 == 1
  }

  lemma BitOfPower(i: nat, j: nat)
    ensures Pow(2, j) >= 1
    ensures (Pow(2, i) / Pow(2, j)) % 2 == 1 <==> i == j
  {
    Pow2Positive(i);
    Pow2Positive(j);
    if j < i {
      PowAdd(2, j, i - j);
      DivExact(Pow(2, i - j), Pow(2, j));
      assert Pow(2, i - j) == 2 * Pow(2, i - j - 1);
    } else if i < j {
      Pow2Increases(i, j);
      DivSmall(Pow(2, i), Pow(2, j));
    } else {
      DivExact(1, Pow(2, i));
    }
  }

  lemma DivExact(q: nat, d: nat)
    requires d >= 1
    ensures (d * q) / d == q
  {
    var p := d * q;
    assert p == d * (p / d) + p % d;
    assert d * (q - p / d) == p % d;
    if q - p / d >= 1 {
      Between(d, q - p / d);
      assert false;
    }
  }

  lemma DivSmall(a: nat, d: nat)
    requires a < d
    ensures a / d == 0
  {
  }

  lemma Pow2Of31()
    ensures Pow(2, 30) == 0x4000_0000 && Pow(2, 31) == TWO_31 && Pow(2, 32) == TWO_32
  {
    assert Pow(2, 8) == 0x100;
    PowAdd(2, 8, 8);
    PowAdd(2, 16, 14);
    assert Pow(2, 14) == 0x4000 by { PowAdd(2, 8, 6); assert Pow(2, 6) == 0x40; }
  }

  lemma MaskOfSmall(i: nat)
    requires i <= 30
    ensures Int32(Pow(2, i)) && AffinityMask(i) == Pow(2, i)
  {
    Pow2Of31();
    Pow2Positive(i);
    Pow2Increases(i, 31);
  }

  lemma MaskOfLarge(i: nat)
    requires i >= 32
    ensures AffinityMask(i) == 0
  {
    Pow2Of31();
    PowAdd(2, 32, i - 32);
    WrapShift(0, Pow(2, i - 32));
  }

  lemma MaskValue(i: nat)
    ensures i <= 30 ==> AffinityMask(i) == Pow(2, i)
    ensures i == 31 ==> AffinityMask(i) == TWO_64 - TWO_31
    ensures i >= 32 ==> AffinityMask(i) == 0
  {
    if i <= 30 {
      MaskOfSmall(i);
    } else if i == 31 {
      Pow2Of31();
    } else {
      MaskOfLarge(i);
    }
  }

  lemma QuotientOfDifference(a: nat, b: nat, d: nat)
    requires 0 < b <= d && a >= 1
    ensures (d * a - b) / d == a - 1
  {
    assert d * a - b == (a - 1) * d + (d - b);
    QuotientIs(d * a - b, d, a - 1, d - b);
  }

  lemma QuotientIs(x: nat, d: nat, q: nat, r: nat)
    requires x == q * d + r && r < d
    ensures x / d == q
  {
    var p := x / d;
    assert x == d * p + x % d;
    if p > q {
      Between(d, p - q);
      assert false;
    } else if p < q {
      Between(d, q - p);
      assert false;
    }
  }

  lemma PowOf64(j: nat)
    requires j < 64
    ensures Pow(2, j) * Pow(2, 64 - j) == TWO_64 && Pow(2, 64 - j) % 2 == 0
  {
    Pow2Of31();
    PowAdd(2, 32, 32);
    PowAdd(2, j, 64 - j);
  }

  lemma PowOf31(j: nat)
    requires j < 31
    ensures Pow(2, j) * Pow(2, 31 - j) == TWO_31 && Pow(2, 31 - j) % 2 == 0
  {
    Pow2Of31();
    PowAdd(2, j, 31 - j);
  }

  lemma EvenQuotient(a: nat, b: nat, d: nat)
    requires d >= 1 && d * a == TWO_64 && d * b == TWO_31 && a % 2 == 0 && b % 2 == 0
    ensures ((TWO_64 - TWO_31) / d) % 2 == 0
  {
    assert d * (a - b) == TWO_64 - TWO_31;
    DivExact(a - b, d);
  }

  lemma OddQuotient(a: nat, d: nat)
    requires TWO_31 <= d && d * a == TWO_64 && a % 2 == 0
    ensures ((TWO_64 - TWO_31) / d) % 2 == 1
  {
    assert a >= 1;
    QuotientOfDifference(a, TWO_31, d);
  }

  // Bit j of 2^64 - 2^31, which index 31 has for its mask.
  lemma BitOf31(j: nat)
    requires j < 64
    ensures Pow(2, j) >= 1
    ensures ((TWO_64 - TWO_31) / Pow(2, j)) % 2 == 1 <==> 31 <= j
  {
    Pow2Positive(j);
    Pow2Positive(64 - j);
    PowOf64(j);
    if j < 31 {
      Pow2Positive(31 - j);
      PowOf31(j);
      EvenQuotient(Pow(2, 64 - j), Pow(2, 31 - j), Pow(2, j));
    } else {
      AtLeastPow31(j);
      OddQuotient(Pow(2, 64 - j), Pow(2, j));
    }
  }

  lemma AtLeastPow31(j: nat)
    requires j >= 31
    ensures Pow(2, j) >= TWO_31
  {
    Pow2Of31();
    if j > 31 { Pow2Increases(31, j); }
  }

  /** The mask used for index i selects processor i and no other exactly when i <= 30: index 31
      overflows and selects 31 and all above it, and every later index selects none. */
  lemma MaskSelectsOnly(i: nat)
    ensures (forall j: nat :: InMask(AffinityMask(i), j) <==> j == i) <==> i <= 30
    ensures i == 31 ==> forall j: nat :: InMask(AffinityMask(i), j) <==> 31 <= j < 64
    ensures i >= 32 ==> forall j: nat :: !InMask(AffinityMask(i), j)
  {
    MaskValue(i);
    if i <= 30 {
      forall j: nat ensures InMask(AffinityMask(i), j) <==> j == i { BitOfPower(i, j); }
    } else if i == 31 {
      forall j: nat ensures InMask(AffinityMask(i), j) <==> 31 <= j < 64 {
        if j < 64 { BitOf31(j); }
      }
      assert InMask(AffinityMask(i), 32);
    } else {
      forall j: nat ensures !InMask(AffinityMask(i), j) { Pow2Positive(j); DivSmall(0, Pow(2, j)); }
      assert !InMask(AffinityMask(i), i);
    }
  }

  ghost function MaskSum(n: nat): nat {
    if n == 0 then 0 else MaskSum(n - 1) + AffinityMask(n - 1)
  }

  ghost predicate Pinned(p: nat, n: nat) {
    exists i: nat :: i < n && InMask(AffinityMask(i), p)
  }

  /** Both per-processor loops pin each of n <= 31 processors exactly once. */
  lemma MasksPartition(n: nat)
    requires n <= 31
    ensures MaskSum(n) == Pow(2, n) - 1
    ensures forall p: nat :: Pinned(p, n) <==> p < n
    ensures forall i: nat, j: nat, p: nat ::
              i < n && j < n && InMask(AffinityMask(i), p) && InMask(AffinityMask(j), p) ==> i == j
  {
    forall i: nat | i < n
      ensures forall p: nat :: InMask(AffinityMask(i), p) <==> p == i
    {
      MaskSelectsOnly(i);
    }
    forall p: nat ensures Pinned(p, n) <==> p < n {
      if p < n { assert InMask(AffinityMask(p), p); }
    }
    MaskSums(n);
  }

  lemma {:induction false} MaskSums(n: nat)
    requires n <= 31
    ensures MaskSum(n) == Pow(2, n) - 1
  {
    if n > 0 {
      MaskSums(n - 1);
      MaskValue(n - 1);
    }
  }
}
