// Integer powers and the 32-bit signed wrap-around that `int` arithmetic has on
// the target, with the facts the loop in hv/src/util.c relies on.
module Power {

  const TWO_31: int := 0x8000_0000
  const TWO_32: int := 0x1_0000_0000
  const TWO_64: int := 0x1_0000_0000_0000_0000

  function Pow(b: int, e: nat): int {
    if e == 0 then 1 else b * Pow(b, e - 1)
  }

  predicate Int32(x: int) {
    -TWO_31 <= x < TWO_31
  }

  // The 32-bit two's complement value congruent to x.
  function Wrap32(x: int): (r: int)
    ensures Int32(r)
    ensures Int32(x) ==> r == x
  {
    (x + TWO_31) % TWO_32 - TWO_31
  }

  lemma WrapShift(x: int, k: int)
    ensures Wrap32(x + TWO_32 * k) == Wrap32(x)
  {
  }

  // Wrapping early or late makes no difference to a product.
  lemma WrapMul(x: int, y: int)
    ensures Wrap32(Wrap32(x) * Wrap32(y)) == Wrap32(x * y)
  {
    var a, b := Wrap32(x), Wrap32(y);
    var j, k := (x + TWO_31) / TWO_32, (y + TWO_31) / TWO_32;
    assert x == a + TWO_32 * j && y == b + TWO_32 * k;
    var t := a * k + b * j + TWO_32 * (j * k);
    assert x * y == a * b + TWO_32 * t by {
      calc {
        x * y;
        (a + TWO_32 * j) * (b + TWO_32 * k);
        a * b + a * (TWO_32 * k) + (TWO_32 * j) * b + (TWO_32 * j) * (TWO_32 * k);
        a * b + TWO_32 * (a * k) + TWO_32 * (b * j) + TWO_32 * (TWO_32 * (j * k));
        a * b + TWO_32 * t;
      }
    }
    WrapShift(a * b, t);
  }

  lemma {:induction false} PowAdd(b: int, m: nat, n: nat)
    ensures Pow(b, m + n) == Pow(b, m) * Pow(b, n)
    decreases m
  {
    if m > 0 {
      PowAdd(b, m - 1, n);
      calc {
        Pow(b, m + n);
        b * (Pow(b, m - 1) * Pow(b, n));
        (b * Pow(b, m - 1)) * Pow(b, n);
      }
    }
  }

  lemma {:induction false} PowSquare(b: int, h: nat)
    ensures Pow(b, 2 * h) == Pow(b * b, h)
  {
    if h > 0 {
      PowSquare(b, h - 1);
      calc {
        Pow(b, 2 * h);
        b * (b * Pow(b, 2 * h - 2));
        (b * b) * Pow(b, 2 * h - 2);
        { assert 2 * h - 2 == 2 * (h - 1); }
        Pow(b * b, h);
      }
    }
  }

  lemma {:induction false} Pow2Positive(e: nat)
    ensures Pow(2, e) >= 1
  {
    if e > 0 { Pow2Positive(e - 1); }
  }

  lemma {:induction false} Pow2Increases(m: nat, n: nat)
    requires m < n
    ensures 2 * Pow(2, m) <= Pow(2, n)
    decreases n
  {
    Pow2Positive(m);
    if m < n - 1 { Pow2Increases(m, n - 1); }
  }

  function Abs(x: int): nat {
    if x < 0 then -x else x
  }

  lemma AbsMul(x: int, y: int)
    ensures Abs(x * y) == Abs(x) * Abs(y)
  {
  }

  lemma MulMono(a: nat, b: nat)
    requires b >= 1
    ensures a <= a * b
  {
  }

  // A nonzero base has a power of absolute value at least 1, at least that of
  // the base for a positive exponent, and of its square from exponent 2 on.
  lemma {:induction false} PowDominates(b: int, e: nat)
    requires b != 0
    ensures Abs(Pow(b, e)) >= 1
    ensures e >= 1 ==> Abs(Pow(b, e)) >= Abs(b)
    ensures e >= 2 ==> Abs(Pow(b, e)) >= Abs(b * b)
    ensures e >= 1 && Abs(b) >= 2 ==> Abs(Pow(b, e)) >= 2
  {
    if e > 0 {
      PowDominates(b, e - 1);
      AbsMul(b, Pow(b, e - 1));
      MulMono(Abs(b), Abs(Pow(b, e - 1)));
      if e == 2 {
        assert Pow(b, 1) == b * Pow(b, 0) == b;
      } else if e > 2 {
        AbsMul(b, b);
        MulMono(Abs(Pow(b, e - 1)), Abs(b));
        assert Abs(Pow(b, e)) == Abs(b) * Abs(Pow(b, e - 1)) == Abs(Pow(b, e - 1)) * Abs(b);
      }
    }
  }
}
