/** What the bit comparison means for the numbers the bits stand for.

  `Decode` is the value of a word as IEEE 754-2008 section 3.4 defines it, over
  the reals. The biased code turns out to order words as their values are
  ordered, so the distance AlmostEquals.h computes counts representable numbers.
 */
module Ulps {
  import opened Bits
  import opened FloatingPoint

  datatype Extended = MinusInfinity | Finite(value: real) | PlusInfinity

  /** x times 2 to the power k, for any integer k. */
  function Scale(x: real, k: int): real
    decreases if k < 0 then -k else k
  {
    if k == 0 then x else if k > 0 then 2.0 * Scale(x, k - 1) else Scale(x, k + 1) / 2.0
  }

  function Bias(f: Format): nat { Pow2(f.exponentBits - 1) - 1 }

  /** The fraction field read as digits after the binary point. */
  function Significand(f: Format, bits: nat): real {
    Scale(Fraction(f, bits) as real, -(f.fractionBits as int))
  }

  /** The absolute value of a finite word; subnormals have no implicit leading one. */
  function Absolute(f: Format, bits: nat): real {
    if Exponent(f, bits) == 0 then Scale(Significand(f, bits), 1 - Bias(f))
    else Scale(1.0 + Significand(f, bits), Exponent(f, bits) - Bias(f))
  }

  /** The value of a word that is not a NaN, IEEE 754-2008 section 3.4. */
  function Decode(f: Format, bits: nat): Extended
    requires IsWord(f, bits) && !IsNan(f, bits)
  {
    var negative := bits >= Half(f);
    if Exponent(f, bits) == Pow2(f.exponentBits) - 1 then (if negative then MinusInfinity else PlusInfinity)
    else Finite(if negative then -Absolute(f, bits) else Absolute(f, bits))
  }

  predicate Less(x: Extended, y: Extended) {
    match (x, y)
    case (Finite(a), Finite(b)) => a < b
    case (MinusInfinity, _) => !y.MinusInfinity?
    case (_, PlusInfinity) => !x.PlusInfinity?
    case _ => false
  }

  /* -------------------- magnitudes in units of the smallest subnormal number */

  /** The value of a finite magnitude as a multiple of the smallest subnormal. */
  function Units(f: Format, m: nat): nat {
    var e, r := ShiftRight(m, f.fractionBits), Low(f.fractionBits, m);
    if e == 0 then r else Shifted(Pow2(f.fractionBits) + r, e - 1)
  }

  /** The distance from a magnitude to the next: its unit in the last place. */
  function Gap(f: Format, m: nat): nat {
    var e := ShiftRight(m, f.fractionBits);
    if e == 0 then 1 else Pow2(e - 1)
  }

  lemma {:induction false} NextBlock(fb: nat, m: nat)
    ensures Low(fb, m) + 1 < Pow2(fb) ==> ShiftRight(m + 1, fb) == ShiftRight(m, fb) && Low(fb, m + 1) == Low(fb, m) + 1
    ensures Low(fb, m) + 1 == Pow2(fb) ==> ShiftRight(m + 1, fb) == ShiftRight(m, fb) + 1 && Low(fb, m + 1) == 0
  {
    if fb > 0 { NextBlock(fb - 1, m / 2); }
  }

  lemma UnitsStep(f: Format, m: nat)
    ensures Units(f, m + 1) == Units(f, m) + Gap(f, m)
  {
    NextBlock(f.fractionBits, m);
    var p, e, r := Pow2(f.fractionBits), ShiftRight(m, f.fractionBits), Low(f.fractionBits, m);
    if e > 0 {
      ShiftedPower(0, e - 1);
      ShiftedSum(p + r, 1, e - 1);
      if r + 1 == p { ShiftedSum(p, p, e - 1); }
    }
  }

  /** A gap is never more than the smallest subnormal or 2^-f of the number. */
  lemma GapIsRelative(f: Format, m: nat)
    ensures Gap(f, m) == 1 || Shifted(Gap(f, m), f.fractionBits) <= Units(f, m)
  {
    var fb, e := f.fractionBits, ShiftRight(m, f.fractionBits);
    if e > 0 {
      ShiftedPower(fb, e - 1);
      ShiftedPower(e - 1, fb);
      ShiftedSum(Pow2(fb), Low(fb, m), e - 1);
    }
  }

  lemma GapGrows(f: Format, m: nat)
    ensures Gap(f, m) <= Gap(f, m + 1)
  {
    NextBlock(f.fractionBits, m);
    var e := ShiftRight(m, f.fractionBits);
    if e > 0 { Pow2Mono(e - 1, ShiftRight(m + 1, f.fractionBits) - 1); }
  }

  lemma {:induction false} GapMono(f: Format, m: nat, n: nat)
    requires m <= n
    ensures Gap(f, m) <= Gap(f, n)
  {
    if m < n { GapMono(f, m, n - 1); GapGrows(f, n - 1); }
  }

  /** Adding one more gap b, with a <= b <= c, to a sum of k gaps between a and b. */
  lemma OneMoreGap(x: int, y: int, k: nat, a: nat, b: nat, c: nat)
    requires x + k * a <= y <= x + k * b && a <= b <= c
    ensures x + (k + 1) * a <= y + b <= x + (k + 1) * c
  {
    assert (k + 1) * a == k * a + a && (k + 1) * b == k * b + b;
    assert (k + 1) * (c - b) >= 0;
    assert (k + 1) * (c - b) == (k + 1) * c - (k + 1) * b;
  }

  /** Between two magnitudes lie at least as many units as gaps of the smaller, and
      at most as many as gaps of the larger. */
  lemma {:induction false} UnitsBetween(f: Format, m: nat, n: nat)
    requires m <= n
    ensures Units(f, m) + (n - m) * Gap(f, m) <= Units(f, n) <= Units(f, m) + (n - m) * Gap(f, n)
  {
    if m < n {
      UnitsBetween(f, m, n - 1);
      UnitsStep(f, n - 1);
      GapMono(f, m, n - 1);
      GapGrows(f, n - 1);
      OneMoreGap(Units(f, m), Units(f, n - 1), n - 1 - m, Gap(f, m), Gap(f, n - 1), Gap(f, n));
    }
  }

  lemma {:induction false} UnitsMono(f: Format, m: nat, n: nat)
    requires m < n
    ensures Units(f, m) < Units(f, n)
  {
    UnitsStep(f, n - 1);
    if m < n - 1 { UnitsMono(f, m, n - 1); }
  }

  /** The signed number of units of a signed magnitude. */
  function SignedUnits(f: Format, s: int): int {
    if s >= 0 then Units(f, s) else -(Units(f, -s) as int)
  }

  lemma UnitsOfZero(f: Format)
    ensures Units(f, 0) == 0
  {
    LowOfWord(f.fractionBits, 0);
  }

  lemma SignedUnitsMono(f: Format, s: int, t: int)
    requires s < t
    ensures SignedUnits(f, s) < SignedUnits(f, t)
  {
    UnitsOfZero(f);
    if s >= 0 { UnitsMono(f, s, t); }
    else if t <= 0 { UnitsMono(f, -t, -s); }
    else { UnitsMono(f, 0, t); UnitsMono(f, 0, -s); }
  }

  /* ------------------------------------------------ words as extended reals */

  /** The exponent of the smallest positive number of the format. */
  function Lowest(f: Format): int { 1 - Bias(f) - f.fractionBits }

  /** The extended real at a signed magnitude; infinity is one step past the largest number. */
  function Value(f: Format, s: int): Extended {
    if s >= InfinityMagnitude(f) then PlusInfinity
    else if -s >= InfinityMagnitude(f) then MinusInfinity
    else Finite(Scale(SignedUnits(f, s) as real, Lowest(f)))
  }

  lemma ScaleUp(x: real, k: int)
    ensures Scale(x, k + 1) == 2.0 * Scale(x, k)
  {
  }

  lemma {:induction false} ScaleNegate(x: real, k: int)
    ensures Scale(-x, k) == -Scale(x, k)
    decreases if k < 0 then -k else k
  {
    if k > 0 { ScaleNegate(x, k - 1); } else if k < 0 { ScaleNegate(x, k + 1); }
  }

  lemma {:induction false} ScaleSum(x: real, y: real, k: int)
    ensures Scale(x + y, k) == Scale(x, k) + Scale(y, k)
    decreases if k < 0 then -k else k
  {
    if k > 0 { ScaleSum(x, y, k - 1); } else if k < 0 { ScaleSum(x, y, k + 1); }
  }

  lemma {:induction false} ScaleLess(x: real, y: real, k: int)
    ensures x < y <==> Scale(x, k) < Scale(y, k)
    decreases if k < 0 then -k else k
  {
    if k > 0 { ScaleLess(x, y, k - 1); } else if k < 0 { ScaleLess(x, y, k + 1); }
  }

  lemma {:induction false} ScaleTwice(x: real, a: int, b: int)
    ensures Scale(Scale(x, a), b) == Scale(x, a + b)
    decreases if b < 0 then -b else b
  {
    if b > 0 { ScaleTwice(x, a, b - 1); ScaleUp(x, a + b - 1); }
    else if b < 0 { ScaleTwice(x, a, b + 1); ScaleUp(x, a + b); }
  }

  lemma {:induction false} ScaleWhole(n: nat, k: nat)
    ensures Scale(n as real, k) == Shifted(n, k) as real
  {
    if k > 0 { ScaleWhole(n, k - 1); }
  }

  /** Two to the power k. */
  function Power(k: int): real { Scale(1.0, k) }

  /** Theorem: `Scale`, in which `Absolute` is defined, is multiplication by a power of two. */
  lemma {:induction false} ScaleIsProduct(x: real, k: int)
    ensures Scale(x, k) == x * Power(k)
    decreases if k < 0 then -k else k
  {
    if k > 0 { ScaleIsProduct(x, k - 1); Doubled(x, Scale(1.0, k - 1), Scale(1.0, k)); }
    else if k < 0 { ScaleIsProduct(x, k + 1); Doubled(x, Scale(1.0, k), Scale(1.0, k + 1)); }
  }

  lemma Doubled(x: real, a: real, b: real)
    requires b == 2.0 * a
    ensures x * b == 2.0 * (x * a)
  {
  }

  lemma PowerIsPow2(k: nat)
    ensures Power(k) == Pow2(k) as real && Power(-(k as int)) * Power(k) == 1.0
  {
    ScaleWhole(1, k);
    ShiftedPower(0, k);
    ScaleTwice(1.0, -(k as int), k);
    ScaleIsProduct(Power(-(k as int)), k);
  }

  lemma SignificandIsQuotient(f: Format, bits: nat)
    ensures Significand(f, bits) == (Fraction(f, bits) as real) * Power(-(f.fractionBits as int))
  {
    ScaleIsProduct(Fraction(f, bits) as real, -(f.fractionBits as int));
  }

  lemma FieldsOfMagnitude(f: Format, bits: nat)
    requires IsWord(f, bits)
    ensures ShiftRight(Magnitude(f, bits), f.fractionBits) == Exponent(f, bits)
    ensures Low(f.fractionBits, Magnitude(f, bits)) == Fraction(f, bits)
  {
    MagnitudeIsFields(f, bits);
    Join(Exponent(f, bits), Fraction(f, bits), f.fractionBits);
  }

  /** A leading one and r digits after the point are (2^fb + r) units of 2^-fb. */
  lemma LeadingOne(fb: nat, r: nat)
    ensures 1.0 + Scale(r as real, -(fb as int)) == Scale((Pow2(fb) + r) as real, -(fb as int))
  {
    ScaleWhole(1, fb);
    ShiftedPower(0, fb);
    ScaleTwice(1.0, fb, -(fb as int));
    ScaleSum(Pow2(fb) as real, r as real, -(fb as int));
  }

  /** The absolute value IEEE 754 gives a finite word, in units of the smallest number. */
  lemma AbsoluteIsUnits(f: Format, bits: nat)
    requires IsWord(f, bits)
    ensures Absolute(f, bits) == Scale(Units(f, Magnitude(f, bits)) as real, Lowest(f))
  {
    FieldsOfMagnitude(f, bits);
    var fb, e, r := f.fractionBits, Exponent(f, bits), Fraction(f, bits);
    if e == 0 {
      ScaleTwice(r as real, -(fb as int), 1 - Bias(f));
    } else {
      LeadingOne(fb, r);
      ScaleTwice((Pow2(fb) + r) as real, -(fb as int), e - Bias(f));
      ScaleTwice((Pow2(fb) + r) as real, e - 1, Lowest(f));
      ScaleWhole(Pow2(fb) + r, e - 1);
    }
  }

  lemma SignedMagnitude(f: Format, bits: nat)
    requires IsWord(f, bits)
    ensures 0 < InfinityMagnitude(f)
    ensures Signed(f, bits) == if bits >= Half(f) then -(Magnitude(f, bits) as int) else Magnitude(f, bits)
  {
    Halves(f);
  }

  lemma SignedAbsolute(f: Format, bits: nat)
    requires IsWord(f, bits)
    ensures (if bits >= Half(f) then -Absolute(f, bits) else Absolute(f, bits))
      == Scale(SignedUnits(f, Signed(f, bits)) as real, Lowest(f))
  {
    SignedMagnitude(f, bits);
    AbsoluteIsUnits(f, bits);
    ScaleNegated(f, Magnitude(f, bits));
  }

  lemma ScaleNegated(f: Format, m: nat)
    ensures Scale(SignedUnits(f, -(m as int)) as real, Lowest(f)) == -Scale(Units(f, m) as real, Lowest(f))
  {
    UnitsOfZero(f);
    ScaleNegate(Units(f, m) as real, Lowest(f));
  }

  /** Anchors: the word with the bias as its exponent field and no fraction is 1. */
  lemma BiasIsOne(f: Format)
    requires f.exponentBits >= 2
    ensures var one := Shifted(Bias(f), f.fractionBits);
      IsWord(f, one) && !IsNan(f, one) && Decode(f, one) == Finite(1.0)
  {
    assert Pow2(f.exponentBits) == 2 * (2 * Pow2(f.exponentBits - 2));
    Halves(f);
    InBlocks(Bias(f), 0, Pow2(f.exponentBits) - 1, f.fractionBits);
    NanIsBeyondInfinity(f, Shifted(Bias(f), f.fractionBits));
    FieldsOfShifted(f, Bias(f));
    ScaleZero(-(f.fractionBits as int));
  }

  /** The exponent mask by itself is infinity. */
  lemma MaskIsInfinity(f: Format)
    ensures var infinity := ExponentBitMask(f);
      IsWord(f, infinity) && !IsNan(f, infinity) && Decode(f, infinity) == PlusInfinity
  {
    Halves(f);
    ExponentMask(f);
    FieldsOfShifted(f, Pow2(f.exponentBits) - 1);
    NanIsBeyondInfinity(f, InfinityMagnitude(f));
  }

  lemma FieldsOfShifted(f: Format, e: nat)
    requires e < Pow2(f.exponentBits)
    ensures Exponent(f, Shifted(e, f.fractionBits)) == e && Fraction(f, Shifted(e, f.fractionBits)) == 0
  {
    Join(e, 0, f.fractionBits);
    LowOfWord(f.exponentBits, e);
  }

  /** Theorem: decoding a word by the standard is reading its signed magnitude off
      the line of representable numbers. */
  lemma DecodeIsValue(f: Format, bits: nat)
    requires IsWord(f, bits) && !IsNan(f, bits)
    ensures Decode(f, bits) == Value(f, Signed(f, bits))
  {
    NanIsBeyondInfinity(f, bits);
    SignedMagnitude(f, bits);
    SignedAbsolute(f, bits);
  }

  lemma ValueMono(f: Format, s: int, t: int)
    requires -(InfinityMagnitude(f) as int) <= s < t <= InfinityMagnitude(f)
    ensures Less(Value(f, s), Value(f, t)) && !Less(Value(f, t), Value(f, s)) && Value(f, s) != Value(f, t)
  {
    SignedUnitsMono(f, s, t);
    ScaleLess(SignedUnits(f, s) as real, SignedUnits(f, t) as real, Lowest(f));
    Halves(f);
  }

  lemma SignedInRange(f: Format, bits: nat)
    requires IsWord(f, bits) && !IsNan(f, bits)
    ensures -(InfinityMagnitude(f) as int) <= Signed(f, bits) <= InfinityMagnitude(f)
  {
    NanIsBeyondInfinity(f, bits);
    Halves(f);
  }

  /** Theorem: the biased code orders the words that are not NaN exactly as their
      values are ordered, with the two zeros equal. */
  lemma BiasedOrdersValues(f: Format, a: nat, b: nat)
    requires IsWord(f, a) && IsWord(f, b) && !IsNan(f, a) && !IsNan(f, b)
    ensures SignAndMagnitudeToBiased(f, a) < SignAndMagnitudeToBiased(f, b) <==> Less(Decode(f, a), Decode(f, b))
    ensures SignAndMagnitudeToBiased(f, a) == SignAndMagnitudeToBiased(f, b) <==> Decode(f, a) == Decode(f, b)
  {
    BiasedIsShifted(f, a); BiasedIsShifted(f, b);
    DecodeIsValue(f, a); DecodeIsValue(f, b);
    SignedInRange(f, a); SignedInRange(f, b);
    var s, t := Signed(f, a), Signed(f, b);
    if s < t { ValueMono(f, s, t); }
    if t < s { ValueMono(f, t, s); }
  }

  /* ------------------------------------------- the distance counts numbers */

  /** The representable values above `lo` and not above `hi`, infinities included. */
  ghost function RepresentableBetween(f: Format, lo: Extended, hi: Extended): set<Extended> {
    set w | 0 <= w < Pow2(BitCount(f)) && !IsNan(f, w) && Less(lo, Decode(f, w))
        && !Less(hi, Decode(f, w)) :: Decode(f, w)
  }

  function ValuesBetween(f: Format, s: int, t: int): set<Extended> {
    set i | s < i <= t :: Value(f, i)
  }

  lemma {:induction false} CountValues(f: Format, s: int, t: int)
    requires -(InfinityMagnitude(f) as int) <= s <= t <= InfinityMagnitude(f)
    ensures |ValuesBetween(f, s, t)| == t - s
    decreases t - s
  {
    if s == t {
      assert ValuesBetween(f, s, t) == {};
    } else {
      CountValues(f, s, t - 1);
      OneMoreValue(f, s, t);
    }
  }

  lemma OneMoreValue(f: Format, s: int, t: int)
    requires -(InfinityMagnitude(f) as int) <= s < t <= InfinityMagnitude(f)
    ensures ValuesBetween(f, s, t) == ValuesBetween(f, s, t - 1) + {Value(f, t)}
    ensures Value(f, t) !in ValuesBetween(f, s, t - 1)
  {
    forall i | s < i <= t - 1 ensures Value(f, i) != Value(f, t) { ValueMono(f, i, t); }
  }

  /** Every signed magnitude up to infinity is some word's. */
  lemma WordOf(f: Format, s: int) returns (w: nat)
    requires -(InfinityMagnitude(f) as int) <= s <= InfinityMagnitude(f)
    ensures IsWord(f, w) && !IsNan(f, w) && Signed(f, w) == s && Decode(f, w) == Value(f, s)
  {
    Halves(f);
    w := if s >= 0 then s else Half(f) - s;
    NanIsBeyondInfinity(f, w);
    DecodeIsValue(f, w);
  }

  lemma BetweenIsValues(f: Format, s: int, t: int)
    requires -(InfinityMagnitude(f) as int) <= s <= t <= InfinityMagnitude(f)
    ensures RepresentableBetween(f, Value(f, s), Value(f, t)) == ValuesBetween(f, s, t)
  {
    forall x ensures x in ValuesBetween(f, s, t) ==> x in RepresentableBetween(f, Value(f, s), Value(f, t)) {
      if i :| s < i <= t && Value(f, i) == x {
        ValueMono(f, s, i);
        if i < t { ValueMono(f, i, t); }
        var w := WordOf(f, i);
        assert !Less(Value(f, t), Decode(f, w));
      }
    }
    forall w: nat | IsWord(f, w) && !IsNan(f, w) && Less(Value(f, s), Decode(f, w)) && !Less(Value(f, t), Decode(f, w))
      ensures Decode(f, w) in ValuesBetween(f, s, t)
    {
      var i := Signed(f, w);
      DecodeIsValue(f, w);
      SignedInRange(f, w);
      if i < s { ValueMono(f, i, s); }
      if i > t { ValueMono(f, t, i); }
    }
  }

  /** Theorem: the computed distance is the number of representable values from one
      number (exclusive) to the other (inclusive). */
  lemma DistanceCountsNumbers(f: Format, a: nat, b: nat)
    requires IsWord(f, a) && IsWord(f, b) && !IsNan(f, a) && !IsNan(f, b)
    ensures !Less(Decode(f, b), Decode(f, a)) ==>
        Distance(f, a, b) == |RepresentableBetween(f, Decode(f, a), Decode(f, b))|
    ensures !Less(Decode(f, a), Decode(f, b)) ==>
        Distance(f, a, b) == |RepresentableBetween(f, Decode(f, b), Decode(f, a))|
  {
    var s, t := Signed(f, a), Signed(f, b);
    DistanceIsDifference(f, a, b);
    DecodeIsValue(f, a); DecodeIsValue(f, b);
    SignedInRange(f, a); SignedInRange(f, b);
    if s <= t { BetweenIsValues(f, s, t); CountValues(f, s, t); }
    if t <= s { BetweenIsValues(f, t, s); CountValues(f, t, s); }
    if s < t { ValueMono(f, s, t); }
    if t < s { ValueMono(f, t, s); }
  }

  /** Theorem, the specification: two words are almost equal if and only if both are
      numbers and at most four representable values lie from the one to the other. */
  lemma AlmostEqualsMeans(f: Format, a: nat, b: nat)
    requires IsWord(f, a) && IsWord(f, b)
    ensures AlmostEquals(f, a, b) <==>
      && !IsNan(f, a) && !IsNan(f, b)
      && |RepresentableBetween(f, Decode(f, a), Decode(f, b))| <= MAX_ULPS
      && |RepresentableBetween(f, Decode(f, b), Decode(f, a))| <= MAX_ULPS
  {
    if !IsNan(f, a) && !IsNan(f, b) {
      DistanceCountsNumbers(f, a, b);
      if Less(Decode(f, a), Decode(f, b)) { NothingBetween(f, Decode(f, b), Decode(f, a)); }
      if Less(Decode(f, b), Decode(f, a)) { NothingBetween(f, Decode(f, a), Decode(f, b)); }
    }
  }

  lemma NothingBetween(f: Format, lo: Extended, hi: Extended)
    requires Less(hi, lo)
    ensures RepresentableBetween(f, lo, hi) == {}
  {
  }

  /* ----------------------------------------------------- the error in reals */

  function Abs(x: real): real { if x < 0.0 then -x else x }

  function Max(x: real, y: real): real { if x < y then y else x }

  /** One unit in the last place of x, or the smallest positive number if that is more. */
  function UlpBound(f: Format, x: real): real {
    Max(Scale(Abs(x), -(f.fractionBits as int)), Scale(1.0, Lowest(f)))
  }

  predicate IsFinite(f: Format, bits: nat) {
    IsWord(f, bits) && !IsNan(f, bits) && Decode(f, bits).Finite?
  }

  function Number(f: Format, bits: nat): real
    requires IsFinite(f, bits)
  {
    Decode(f, bits).value
  }

  lemma NumberInUnits(f: Format, bits: nat)
    requires IsFinite(f, bits)
    ensures Number(f, bits) == Scale(SignedUnits(f, Signed(f, bits)) as real, Lowest(f))
  {
    DecodeIsValue(f, bits);
  }

  lemma FiniteNumber(f: Format, bits: nat)
    requires IsFinite(f, bits)
    ensures Abs(Number(f, bits)) == Scale(Units(f, Magnitude(f, bits)) as real, Lowest(f))
  {
    NumberInUnits(f, bits);
    SizeOfSigned(f, bits);
    ScaleAbs(SignedUnits(f, Signed(f, bits)), Lowest(f));
  }

  lemma SizeOfSigned(f: Format, bits: nat)
    requires IsWord(f, bits)
    ensures Size(Signed(f, bits)) == Magnitude(f, bits)
  {
    SignedMagnitude(f, bits);
  }

  lemma ScaleAbs(x: int, k: int)
    ensures Abs(Scale(x as real, k)) == Scale(Size(x) as real, k)
  {
    ScaleZero(k);
    ScaleLess(x as real, 0.0, k);
    ScaleNegate(x as real, k);
  }

  lemma {:induction false} ScaleZero(k: int)
    ensures Scale(0.0, k) == 0.0
    decreases if k < 0 then -k else k
  {
    if k > 0 { ScaleZero(k - 1); } else if k < 0 { ScaleZero(k + 1); }
  }

  function UnitsApart(f: Format, s: int, t: int): nat {
    Size(SignedUnits(f, s) - SignedUnits(f, t))
  }

  /** The real difference is the difference in units. */
  lemma DifferenceInUnits(f: Format, a: nat, b: nat)
    requires IsFinite(f, a) && IsFinite(f, b)
    ensures Abs(Number(f, a) - Number(f, b)) == Scale(UnitsApart(f, Signed(f, a), Signed(f, b)) as real, Lowest(f))
  {
    NumberInUnits(f, a);
    NumberInUnits(f, b);
    ScaleDistance(SignedUnits(f, Signed(f, a)), SignedUnits(f, Signed(f, b)), Lowest(f));
  }

  lemma ScaleDistance(x: int, y: int, k: int)
    ensures Abs(Scale(x as real, k) - Scale(y as real, k)) == Scale(Size(x - y) as real, k)
  {
    ScaleNegate(y as real, k);
    ScaleSum(x as real, -(y as real), k);
    ScaleAbs(x - y, k);
  }

  lemma FewGaps(k: nat, g: nat)
    requires k <= MAX_ULPS
    ensures k * g <= MAX_ULPS * g
  {
    assert (MAX_ULPS - k) * g >= 0;
  }

  lemma ShortOnOneSide(f: Format, lo: nat, hi: nat)
    requires lo <= hi <= lo + MAX_ULPS
    ensures 0 <= Units(f, hi) - Units(f, lo) <= MAX_ULPS * Gap(f, hi)
  {
    UnitsBetween(f, lo, hi);
    FewGaps(hi - lo, Gap(f, hi));
    if lo < hi { UnitsMono(f, lo, hi); }
  }

  lemma ShortAcrossZero(f: Format, lo: nat, hi: nat)
    requires lo <= hi && lo + hi <= MAX_ULPS
    ensures Units(f, lo) + Units(f, hi) <= MAX_ULPS * Gap(f, hi)
  {
    UnitsOfZero(f);
    UnitsBetween(f, 0, lo);
    UnitsBetween(f, 0, hi);
    GapMono(f, lo, hi);
    TwoSides(lo, hi, Gap(f, lo), Gap(f, hi));
    FewGaps(lo + hi, Gap(f, hi));
  }

  function Larger(m: nat, n: nat): nat { if m < n then n else m }

  function Size(s: int): nat { if s < 0 then -s else s }

  /** Four steps, none longer than the gap at the larger magnitude. */
  lemma StepsAreShort(f: Format, s: int, t: int)
    requires -(MAX_ULPS as int) <= s - t <= MAX_ULPS
    ensures UnitsApart(f, s, t) <= MAX_ULPS * Gap(f, Larger(Size(s), Size(t)))
  {
    var lo, hi := if Size(s) < Size(t) then Size(s) else Size(t), Larger(Size(s), Size(t));
    UnitsOfZero(f);
    if (s >= 0 && t >= 0) || (s <= 0 && t <= 0) {
      ShortOnOneSide(f, lo, hi);
    } else {
      ShortAcrossZero(f, lo, hi);
    }
  }

  lemma TwoSides(lo: nat, hi: nat, g: nat, h: nat)
    requires g <= h
    ensures lo * g + hi * h <= (lo + hi) * h
  {
    assert lo * (h - g) >= 0;
  }

  /** A gap in reals: the smallest number, or 2^-fb of the number itself. */
  lemma GapBound(f: Format, m: nat)
    ensures Scale(Gap(f, m) as real, Lowest(f)) <= UlpBound(f, Scale(Units(f, m) as real, Lowest(f)))
  {
    var g, u, fb, k := Gap(f, m), Units(f, m), f.fractionBits, Lowest(f);
    GapIsRelative(f, m);
    ScaleZero(k);
    if u > 0 { ScaleLess(0.0, u as real, k); }
    if g != 1 {
      ScaleWhole(g, fb);
      ScaleTwice(g as real, fb, -(fb as int));
      ScaleLess(u as real, Shifted(g, fb) as real, -(fb as int));
      ScaleLess(Scale(u as real, -(fb as int)), g as real, k);
      ScaleTwice(u as real, -(fb as int), k);
      ScaleTwice(u as real, k, -(fb as int));
    }
  }

  lemma ScaleFour(x: real, k: int)
    ensures Scale(4.0 * x, k) == 4.0 * Scale(x, k)
  {
    ScaleSum(x, x, k);
    ScaleSum(2.0 * x, 2.0 * x, k);
  }

  /** Theorem: almost equal finite numbers differ by at most four times the larger
      of 2^-f of the bigger number and the smallest positive number. */
  lemma ErrorBound(f: Format, a: nat, b: nat)
    requires IsFinite(f, a) && IsFinite(f, b) && AlmostEquals(f, a, b)
    ensures Abs(Number(f, a) - Number(f, b)) <= 4.0 * UlpBound(f, Max(Abs(Number(f, a)), Abs(Number(f, b))))
  {
    var s, t, k := Signed(f, a), Signed(f, b), Lowest(f);
    FiniteNumber(f, a); FiniteNumber(f, b);
    SizeOfSigned(f, a); SizeOfSigned(f, b);
    DistanceIsDifference(f, a, b);
    DifferenceInUnits(f, a, b);
    StepsInReals(f, s, t);
    LargerMagnitude(f, Size(s), Size(t));
  }

  /** At most four steps are at most four times the bound at the larger magnitude. */
  lemma StepsInReals(f: Format, s: int, t: int)
    requires -(MAX_ULPS as int) <= s - t <= MAX_ULPS
    ensures Scale(UnitsApart(f, s, t) as real, Lowest(f))
        <= 4.0 * UlpBound(f, Scale(Units(f, Larger(Size(s), Size(t))) as real, Lowest(f)))
  {
    var m, k := Larger(Size(s), Size(t)), Lowest(f);
    StepsAreShort(f, s, t);
    ScaleLess((4 * Gap(f, m)) as real, UnitsApart(f, s, t) as real, k);
    ScaleFour(Gap(f, m) as real, k);
    GapBound(f, m);
  }

  lemma LargerMagnitude(f: Format, m: nat, n: nat)
    ensures Max(Scale(Units(f, m) as real, Lowest(f)), Scale(Units(f, n) as real, Lowest(f)))
      == Scale(Units(f, Larger(m, n)) as real, Lowest(f))
  {
    if m < n { UnitsMono(f, m, n); ScaleLess(Units(f, m) as real, Units(f, n) as real, Lowest(f)); }
    if n < m { UnitsMono(f, n, m); ScaleLess(Units(f, n) as real, Units(f, m) as real, Lowest(f)); }
  }

  /** The unit in the last place of a finite word, from its exponent field. */
  function Ulp(f: Format, bits: nat): real {
    Scale(1.0, (if Exponent(f, bits) == 0 then 1 else Exponent(f, bits)) - Bias(f) - f.fractionBits)
  }

  lemma UlpIsGap(f: Format, bits: nat)
    requires IsWord(f, bits)
    ensures Ulp(f, bits) == Scale(Gap(f, Magnitude(f, bits)) as real, Lowest(f))
  {
    FieldsOfMagnitude(f, bits);
    var e := Exponent(f, bits);
    if e > 0 {
      ScaleWhole(1, e - 1);
      ShiftedPower(0, e - 1);
      ScaleTwice(1.0, e - 1, Lowest(f));
    }
  }

  /** Theorem, the converse: finite numbers of one sign that differ by at most four
      units in the last place of the smaller are almost equal. */
  lemma CloseNumbersAreAlmostEqual(f: Format, a: nat, b: nat)
    requires IsFinite(f, a) && IsFinite(f, b) && (a < Half(f) <==> b < Half(f))
    requires Magnitude(f, a) <= Magnitude(f, b)
    requires Abs(Number(f, a) - Number(f, b)) <= 4.0 * Ulp(f, a)
    ensures AlmostEquals(f, a, b) && AlmostEquals(f, b, a)
  {
    var s, t, k := Signed(f, a), Signed(f, b), Lowest(f);
    SignedMagnitude(f, a); SignedMagnitude(f, b);
    DistanceIsDifference(f, a, b); DistanceIsDifference(f, b, a);
    DifferenceInUnits(f, a, b);
    UlpIsGap(f, a);
    ScaleFour(Gap(f, Size(s)) as real, k);
    ScaleLess((4 * Gap(f, Size(s))) as real, UnitsApart(f, s, t) as real, k);
    CloseSteps(f, s, t);
  }

  /** At most four gaps of the smaller magnitude are at most four steps. */
  lemma CloseSteps(f: Format, s: int, t: int)
    requires (0 <= s <= t || t <= s <= 0) && UnitsApart(f, s, t) <= 4 * Gap(f, Size(s))
    ensures Size(s - t) <= 4
  {
    var m, n := Size(s), Size(t);
    UnitsOfZero(f);
    UnitsBetween(f, m, m + 4);
    if n > m + 4 { UnitsMono(f, m + 4, n); }
  }
}
