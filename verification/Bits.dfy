/** Unsigned machine words of any width, bit by bit: what C++'s `&`, `|`, `~`,
    shifts and wrapping arithmetic mean as integer arithmetic. */
module Bits {

  function Pow2(k: nat): (p: nat)
    ensures p > 0
  {
    if k == 0 then 1 else 2 * Pow2(k - 1)
  }

  function And(x: nat, y: nat): nat {
    if x == 0 || y == 0 then 0
    else (if x % 2 == 1 && y % 2 == 1 then 1 else 0) + 2 * And(x / 2, y / 2)
  }

  function Or(x: nat, y: nat): nat {
    if x == 0 then y else if y == 0 then x
    else (if x % 2 == 1 || y % 2 == 1 then 1 else 0) + 2 * Or(x / 2, y / 2)
  }

  /** `~x` on a word of `n` bits. */
  function Not(n: nat, x: nat): nat {
    if n == 0 then 0 else (1 - x % 2) + 2 * Not(n - 1, x / 2)
  }

  /** The low `n` bits of an integer, in two's complement if it is negative: what
      fits into a word of `n` bits. */
  function Low(n: nat, x: int): (low: nat)
    ensures low < Pow2(n)
  {
    if n == 0 then 0 else x % 2 + 2 * Low(n - 1, x / 2)
  }

  /** x followed by k zero bits. */
  function Shifted(x: nat, k: nat): nat {
    if k == 0 then x else 2 * Shifted(x, k - 1)
  }

  function ShiftLeft(n: nat, x: nat, k: nat): nat {
    Low(n, Shifted(x, k))
  }

  function ShiftRight(x: nat, k: nat): nat {
    if k == 0 then x else ShiftRight(x / 2, k - 1)
  }

  function Add(n: nat, x: nat, y: nat): nat {
    Low(n, x + y)
  }

  function Sub(n: nat, x: nat, y: nat): nat {
    Low(n, x - y)
  }

  lemma {:induction false} Pow2Add(a: nat, b: nat)
    ensures Pow2(a + b) == Pow2(a) * Pow2(b)
  {
    if b > 0 {
      Pow2Add(a, b - 1);
      assert Pow2(a + b) == 2 * Pow2(a + (b - 1));
    }
  }

  lemma {:induction false} Pow2Mono(a: nat, b: nat)
    requires a <= b
    ensures Pow2(a) <= Pow2(b)
  {
    if a < b { Pow2Mono(a, b - 1); }
  }

  /** Splitting off the lowest bit commutes with division and remainder. */
  lemma HalfDivMod(x: int, m: nat)
    requires m > 0
    ensures x / (2 * m) == x / 2 / m && x % (2 * m) == x % 2 + 2 * (x / 2 % m)
  {
    var q, r := x / 2 / m, x / 2 % m;
    assert x / 2 == m * q + r;
    assert x == (2 * m) * q + (2 * r + x % 2);
    DivModUnique(x, 2 * m, q, 2 * r + x % 2);
  }

  lemma DivModUnique(x: int, d: int, q: int, r: int)
    requires d > 0 && 0 <= r < d && x == d * q + r
    ensures x / d == q && x % d == r
  {
    var q', r' := x / d, x % d;
    assert x == d * q' + r';
    assert d * (q - q') == r' - r && d * (q' - q) == r - r';
    if q > q' { MulAtLeast(d, q - q'); }
    if q < q' { MulAtLeast(d, q' - q); }
  }

  /** A number that fits is not changed by the word's width, and shifts out entirely. */
  lemma {:induction false} LowOfWord(n: nat, x: nat)
    requires x < Pow2(n)
    ensures Low(n, x) == x && ShiftRight(x, n) == 0
  {
    if n > 0 { LowOfWord(n - 1, x / 2); }
  }

  /** Two fields put side by side come apart again. */
  lemma {:induction false} Join(high: nat, low: nat, k: nat)
    requires low < Pow2(k)
    ensures ShiftRight(Shifted(high, k) + low, k) == high && Low(k, Shifted(high, k) + low) == low
  {
    if k > 0 { Join(high, low / 2, k - 1); }
  }

  lemma {:induction false} LowOfLow(j: nat, k: nat, x: nat)
    ensures Low(j + k, x) == Shifted(Low(j, ShiftRight(x, k)), k) + Low(k, x)
  {
    if k > 0 { LowOfLow(j, k - 1, x / 2); }
  }

  lemma {:induction false} ShiftOnes(j: nat, k: nat)
    ensures ShiftRight(Pow2(j + k) - 1, k) == Pow2(j) - 1
  {
    if k > 0 {
      ShiftOnes(j, k - 1);
      assert (Pow2(j + k) - 1) / 2 == Pow2(j + k - 1) - 1;
    }
  }

  /** Numbers counted in blocks of 2^k. */
  lemma InBlocks(e: nat, r: nat, top: nat, k: nat)
    requires r < Pow2(k) && e <= top
    ensures Shifted(e, k) == Shifted(top, k) && r != 0 <==> Shifted(e, k) + r > Shifted(top, k)
    ensures e == top <==> Shifted(e, k) + r >= Shifted(top, k)
  {
    if e < top {
      ShiftedSum(e, top - e, k);
      ShiftedSum(1, top - e - 1, k);
      ShiftedPower(0, k);
    }
  }

  /** Keeping the low bits is reducing modulo a power of two: arithmetic wraps. */
  lemma {:induction false} LowIsMod(n: nat, x: int)
    ensures Low(n, x) == x % Pow2(n)
  {
    if n > 0 {
      LowIsMod(n - 1, x / 2);
      HalfDivMod(x, Pow2(n - 1));
    }
  }

  lemma {:induction false} ShiftedIsProduct(x: nat, k: nat)
    ensures Shifted(x, k) == Pow2(k) * x
  {
    if k > 0 {
      ShiftedIsProduct(x, k - 1);
      Twice(Pow2(k - 1), x);
    }
  }

  lemma {:induction false} ShiftedSum(x: nat, y: nat, k: nat)
    ensures Shifted(x + y, k) == Shifted(x, k) + Shifted(y, k)
  {
    if k > 0 { ShiftedSum(x, y, k - 1); }
  }

  lemma {:induction false} ShiftedPower(a: nat, k: nat)
    ensures Shifted(Pow2(a), k) == Pow2(a + k)
  {
    if k > 0 {
      ShiftedPower(a, k - 1);
      assert Pow2(a + k) == 2 * Pow2(a + (k - 1));
    }
  }

  lemma MulAtLeast(d: int, k: int)
    requires d > 0 && k >= 1
    ensures d * k >= d
  {
  }

  lemma {:induction false} NotIsComplement(n: nat, x: nat)
    requires x < Pow2(n)
    ensures Not(n, x) == Pow2(n) - 1 - x
  {
    if n > 0 { NotIsComplement(n - 1, x / 2); }
  }

  lemma {:induction false} AndLowMask(k: nat, x: nat)
    ensures And(Pow2(k) - 1, x) == Low(k, x)
  {
    if k > 0 {
      AndLowMask(k - 1, x / 2);
      assert (Pow2(k) - 1) / 2 == Pow2(k - 1) - 1;
    }
  }

  lemma {:induction false} ShiftRightIsDiv(x: nat, k: nat)
    ensures ShiftRight(x, k) == x / Pow2(k)
  {
    if k > 0 {
      ShiftRightIsDiv(x / 2, k - 1);
      HalfDivMod(x, Pow2(k - 1));
    }
  }

  lemma Twice(p: nat, m: nat)
    ensures p * m >= 0 && 2 * p * m == 2 * (p * m)
  {
  }

  lemma AndDoubled(h: nat, x: nat)
    ensures And(2 * h, x) == 2 * And(h, x / 2)
  {
  }

  lemma {:induction false} AndShifted(k: nat, m: nat, x: nat)
    ensures And(Shifted(m, k), x) == Shifted(And(m, ShiftRight(x, k)), k)
  {
    if k > 0 {
      AndShifted(k - 1, m, x / 2);
      AndDoubled(Shifted(m, k - 1), x);
    }
  }

  lemma {:induction false} OrIsSumLessAnd(x: nat, y: nat)
    ensures Or(x, y) == x + y - And(x, y)
  {
    if x > 0 && y > 0 { OrIsSumLessAnd(x / 2, y / 2); }
  }
}
