/** Comparing floating-point numbers by their bits (AlmostEquals.h), for a binary
    format of any exponent and fraction width. */
module FloatingPoint {
  import opened Bits

  datatype Layout = Layout(exponentBits: nat, fractionBits: nat)

  type Format = f: Layout | f.exponentBits > 0 witness Layout(8, 23)

  const FLOAT: Format := Layout(8, 23)
  const DOUBLE: Format := Layout(11, 52)

  /** How many units in the last place two almost equal numbers may be apart. */
  const MAX_ULPS: nat := 4

  function BitCount(f: Format): nat { 1 + f.exponentBits + f.fractionBits }

  function SignBitMask(f: Format): nat { ShiftLeft(BitCount(f), 1, BitCount(f) - 1) }

  function FractionBitMask(f: Format): nat { ShiftRight(Not(BitCount(f), 0), f.exponentBits + 1) }

  function ExponentBitMask(f: Format): nat { Not(BitCount(f), Or(SignBitMask(f), FractionBitMask(f))) }

  predicate IsWord(f: Format, bits: nat) { bits < Pow2(BitCount(f)) }

  predicate IsNan(f: Format, bits: nat) {
    And(ExponentBitMask(f), bits) == ExponentBitMask(f) && And(FractionBitMask(f), bits) != 0
  }

  function SignAndMagnitudeToBiased(f: Format, sam: nat): nat {
    if And(SignBitMask(f), sam) != 0 then Add(BitCount(f), Not(BitCount(f), sam), 1)
    else Or(SignBitMask(f), sam)
  }

  function Distance(f: Format, sam1: nat, sam2: nat): nat {
    var biased1, biased2 := SignAndMagnitudeToBiased(f, sam1), SignAndMagnitudeToBiased(f, sam2);
    if biased1 >= biased2 then Sub(BitCount(f), biased1, biased2) else Sub(BitCount(f), biased2, biased1)
  }

  predicate AlmostEquals(f: Format, a: nat, b: nat) {
    if IsNan(f, a) || IsNan(f, b) then false else Distance(f, a, b) <= MAX_ULPS
  }

  /* --------------------------------------- the masks pick out the three fields */

  /** The weight of the sign bit, and the first magnitude that is not finite. */
  function Half(f: Format): nat { Pow2(f.exponentBits + f.fractionBits) }

  function InfinityMagnitude(f: Format): nat { Shifted(Pow2(f.exponentBits) - 1, f.fractionBits) }

  function Exponent(f: Format, bits: nat): nat { Low(f.exponentBits, ShiftRight(bits, f.fractionBits)) }

  function Fraction(f: Format, bits: nat): nat { Low(f.fractionBits, bits) }

  /** The number a word stands for in sign-and-magnitude notation. */
  function Signed(f: Format, bits: nat): int { if bits < Half(f) then bits else Half(f) - bits }

  function Magnitude(f: Format, bits: nat): nat
    requires IsWord(f, bits)
  {
    if bits < Half(f) then bits else bits - Half(f)
  }

  lemma Halves(f: Format)
    ensures Pow2(BitCount(f)) == 2 * Half(f)
    ensures InfinityMagnitude(f) == Half(f) - Pow2(f.fractionBits)
    ensures 0 < Pow2(f.fractionBits) < Half(f)
  {
    var fb, eb := f.fractionBits, f.exponentBits;
    ShiftedSum(Pow2(eb) - 1, 1, fb);
    ShiftedPower(eb, fb);
    ShiftedPower(0, fb);
    Pow2Mono(fb + 1, eb + fb);
  }

  lemma SignMask(f: Format)
    ensures SignBitMask(f) == Half(f)
  {
    Halves(f);
    ShiftedPower(0, BitCount(f) - 1);
    LowOfWord(BitCount(f), Half(f));
  }

  lemma FractionMask(f: Format)
    ensures FractionBitMask(f) == Pow2(f.fractionBits) - 1
  {
    NotIsComplement(BitCount(f), 0);
    ShiftOnes(f.fractionBits, f.exponentBits + 1);
  }

  lemma SignAndRest(f: Format, bits: nat)
    requires IsWord(f, bits)
    ensures ShiftRight(bits, f.exponentBits + f.fractionBits) == if bits < Half(f) then 0 else 1
    ensures Low(f.exponentBits + f.fractionBits, bits) == Magnitude(f, bits) < Half(f)
  {
    var k := f.exponentBits + f.fractionBits;
    ShiftedPower(0, k);
    if bits < Half(f) { LowOfWord(k, bits); } else { Join(1, bits - Half(f), k); }
  }

  lemma AndSign(f: Format, bits: nat)
    requires IsWord(f, bits)
    ensures And(SignBitMask(f), bits) == if bits < Half(f) then 0 else Half(f)
  {
    SignMask(f);
    Halves(f);
    var k := f.exponentBits + f.fractionBits;
    AndShifted(k, 1, bits);
    ShiftedPower(0, k);
    ShiftedSum(0, 0, k);
    SignAndRest(f, bits);
    assert And(1, 1) == 1 && And(1, 0) == 0;
  }

  lemma ExponentMask(f: Format)
    ensures ExponentBitMask(f) == InfinityMagnitude(f)
  {
    SignMask(f);
    FractionMask(f);
    Halves(f);
    AndSign(f, FractionBitMask(f));
    OrIsSumLessAnd(SignBitMask(f), FractionBitMask(f));
    NotIsComplement(BitCount(f), Half(f) + Pow2(f.fractionBits) - 1);
  }

  /** Theorem: the masks isolate the exponent and fraction fields. */
  lemma MasksSelectFields(f: Format, bits: nat)
    requires IsWord(f, bits)
    ensures And(ExponentBitMask(f), bits) == Shifted(Exponent(f, bits), f.fractionBits)
    ensures And(FractionBitMask(f), bits) == Fraction(f, bits)
  {
    ExponentMask(f);
    FractionMask(f);
    AndLowMask(f.fractionBits, bits);
    AndShifted(f.fractionBits, Pow2(f.exponentBits) - 1, bits);
    AndLowMask(f.exponentBits, ShiftRight(bits, f.fractionBits));
  }

  lemma MagnitudeIsFields(f: Format, bits: nat)
    requires IsWord(f, bits)
    ensures Magnitude(f, bits) == Shifted(Exponent(f, bits), f.fractionBits) + Fraction(f, bits)
    ensures Magnitude(f, bits) < Half(f)
  {
    SignAndRest(f, bits);
    LowOfLow(f.exponentBits, f.fractionBits, bits);
  }

  /** Theorem: the fields are what division by powers of two says they are. */
  lemma FieldsAreDigits(f: Format, bits: nat)
    requires IsWord(f, bits)
    ensures Exponent(f, bits) == bits / Pow2(f.fractionBits) % Pow2(f.exponentBits)
    ensures Fraction(f, bits) == bits % Pow2(f.fractionBits)
    ensures Magnitude(f, bits) == Pow2(f.fractionBits) * Exponent(f, bits) + Fraction(f, bits)
  {
    LowIsMod(f.exponentBits, ShiftRight(bits, f.fractionBits));
    ShiftRightIsDiv(bits, f.fractionBits);
    LowIsMod(f.fractionBits, bits);
    MagnitudeIsFields(f, bits);
    ShiftedIsProduct(Exponent(f, bits), f.fractionBits);
  }

  /** Theorem: the NaNs are exactly the words whose magnitude exceeds infinity's. */
  lemma NanIsBeyondInfinity(f: Format, bits: nat)
    requires IsWord(f, bits)
    ensures IsNan(f, bits) <==> Magnitude(f, bits) > InfinityMagnitude(f)
    ensures Exponent(f, bits) == Pow2(f.exponentBits) - 1 <==> Magnitude(f, bits) >= InfinityMagnitude(f)
  {
    MasksSelectFields(f, bits);
    ExponentMask(f);
    MagnitudeIsFields(f, bits);
    InBlocks(Exponent(f, bits), Fraction(f, bits), Pow2(f.exponentBits) - 1, f.fractionBits);
  }

  /** Theorem: in wrapping unsigned arithmetic of any width, the biased code is the
      signed number shifted by half the range. */
  lemma BiasedIsShifted(f: Format, sam: nat)
    requires IsWord(f, sam)
    ensures SignAndMagnitudeToBiased(f, sam) == Half(f) + Signed(f, sam)
    ensures 0 < SignAndMagnitudeToBiased(f, sam) < Pow2(BitCount(f))
  {
    Halves(f);
    SignMask(f);
    AndSign(f, sam);
    if sam < Half(f) {
      OrIsSumLessAnd(SignBitMask(f), sam);
    } else {
      NotIsComplement(BitCount(f), sam);
      LowOfWord(BitCount(f), Pow2(BitCount(f)) - sam);
    }
  }

  /** Theorem: the computed distance is the distance of the signed numbers; nothing wraps. */
  lemma DistanceIsDifference(f: Format, a: nat, b: nat)
    requires IsWord(f, a) && IsWord(f, b)
    ensures Distance(f, a, b) ==
      if Signed(f, a) >= Signed(f, b) then Signed(f, a) - Signed(f, b) else Signed(f, b) - Signed(f, a)
  {
    BiasedIsShifted(f, a);
    BiasedIsShifted(f, b);
    var x, y := SignAndMagnitudeToBiased(f, a), SignAndMagnitudeToBiased(f, b);
    var d := if x >= y then x - y else y - x;
    LowOfWord(BitCount(f), d);
  }

  /* -------------------------------------------------------- as a comparison */

  /** The word of the negated number. */
  function Negate(f: Format, bits: nat): nat
    requires IsWord(f, bits)
  {
    if bits < Half(f) then bits + Half(f) else bits - Half(f)
  }

  lemma Negated(f: Format, bits: nat)
    requires IsWord(f, bits)
    ensures var n := Negate(f, bits);
      IsWord(f, n) && (IsNan(f, n) <==> IsNan(f, bits)) && Signed(f, n) == -Signed(f, bits)
  {
    Halves(f);
    NanIsBeyondInfinity(f, bits);
    NanIsBeyondInfinity(f, Negate(f, bits));
  }

  /** Theorem: symmetric, reflexive exactly on numbers, and blind to negation of both sides. */
  lemma ComparisonLaws(f: Format, a: nat, b: nat)
    requires IsWord(f, a) && IsWord(f, b)
    ensures AlmostEquals(f, a, b) <==> AlmostEquals(f, b, a)
    ensures AlmostEquals(f, a, a) <==> !IsNan(f, a)
    ensures IsWord(f, Negate(f, a)) && IsWord(f, Negate(f, b))
    ensures AlmostEquals(f, Negate(f, a), Negate(f, b)) <==> AlmostEquals(f, a, b)
    ensures !IsNan(f, a) ==> (AlmostEquals(f, a, Negate(f, a)) <==> Magnitude(f, a) <= MAX_ULPS / 2)
  {
    var na, nb := Negate(f, a), Negate(f, b);
    Negated(f, a);
    Negated(f, b);
    DistanceIsDifference(f, a, b); DistanceIsDifference(f, b, a); DistanceIsDifference(f, a, a);
    DistanceIsDifference(f, na, nb); DistanceIsDifference(f, a, na);
  }

  ghost predicate Transitive(f: Format) {
    forall a: nat, b: nat, c: nat ::
      IsWord(f, a) && IsWord(f, b) && IsWord(f, c) && AlmostEquals(f, a, b) && AlmostEquals(f, b, c) ==>
          AlmostEquals(f, a, c)
  }

  /** Theorem: the comparison is transitive in a format if and only if all its numbers
      lie within four steps of one another, which is so in the two smallest formats. */
  lemma TransitiveIff(f: Format)
    ensures Transitive(f) <==> InfinityMagnitude(f) <= MAX_ULPS / 2
  {
    if InfinityMagnitude(f) <= MAX_ULPS / 2 {
      forall a: nat, c: nat | IsWord(f, a) && IsWord(f, c) && !IsNan(f, a) && !IsNan(f, c)
        ensures AlmostEquals(f, a, c)
      {
        NanIsBeyondInfinity(f, a);
        NanIsBeyondInfinity(f, c);
        DistanceIsDifference(f, a, c);
      }
    } else {
      TwoHopsTooFar(f);
    }
  }

  /** From -3 over 1 to 3 in steps of the representable line. */
  lemma TwoHopsTooFar(f: Format)
    requires InfinityMagnitude(f) > MAX_ULPS / 2
    ensures var a := Half(f) + 3;
      && IsWord(f, a) && IsWord(f, 1) && IsWord(f, 3)
      && AlmostEquals(f, a, 1) && AlmostEquals(f, 1, 3) && !AlmostEquals(f, a, 3)
  {
    Halves(f);
    var a := Half(f) + 3;
    NanIsBeyondInfinity(f, a); NanIsBeyondInfinity(f, 1); NanIsBeyondInfinity(f, 3);
    DistanceIsDifference(f, a, 1); DistanceIsDifference(f, 1, 3); DistanceIsDifference(f, a, 3);
  }

  lemma {:induction false} TransitiveFormats(f: Format)
    ensures InfinityMagnitude(f) <= MAX_ULPS / 2 <==> f.exponentBits == 1 && f.fractionBits <= 1
  {
    Halves(f);
    var e, k := f.exponentBits, f.fractionBits;
    if e > 1 {
      Pow2Mono(k + 2, e + k);
      assert Pow2(k + 2) == 4 * Pow2(k);
    } else if k > 1 {
      Pow2Mono(2, k);
      assert Pow2(2) == 4;
    }
  }

  /** An example in any format with five finite magnitudes, `float` and `double` among them. */
  lemma NotTransitive(f: Format)
    requires InfinityMagnitude(f) >= 5
    ensures IsWord(f, 0) && IsWord(f, 4) && IsWord(f, 5)
    ensures AlmostEquals(f, 0, 4) && AlmostEquals(f, 4, 5) && !AlmostEquals(f, 0, 5)
  {
    Halves(f);
    NanIsBeyondInfinity(f, 0); NanIsBeyondInfinity(f, 4); NanIsBeyondInfinity(f, 5);
    DistanceIsDifference(f, 0, 4); DistanceIsDifference(f, 4, 5); DistanceIsDifference(f, 0, 5);
  }

  /** Theorem: a chain of n almost equal hops drifts at most 4n steps. */
  lemma {:induction false} ChainDrift(f: Format, chain: seq<nat>)
    requires |chain| > 0 && forall k :: 0 <= k < |chain| ==> IsWord(f, chain[k])
    requires forall k :: 0 <= k < |chain| - 1 ==> AlmostEquals(f, chain[k], chain[k + 1])
    ensures Distance(f, chain[0], chain[|chain| - 1]) <= MAX_ULPS * (|chain| - 1)
  {
    var n := |chain| - 1;
    DistanceIsDifference(f, chain[0], chain[n]);
    if n > 0 {
      ChainDrift(f, chain[..n]);
      assert AlmostEquals(f, chain[n - 1], chain[n - 1 + 1]);
      DistanceIsDifference(f, chain[0], chain[n - 1]);
      DistanceIsDifference(f, chain[n - 1], chain[n]);
    }
  }

  lemma Pow2Values()
    ensures Pow2(8) == 0x100 && Pow2(23) == 0x80_0000 && Pow2(31) == 0x8000_0000
    ensures Pow2(11) == 0x800 && Pow2(52) == 0x10_0000_0000_0000 && Pow2(63) == 0x8000_0000_0000_0000
  {
    assert Pow2(4) == 16;
    Pow2Add(4, 4); Pow2Add(8, 8); Pow2Add(16, 7); Pow2Add(16, 16); Pow2Add(23, 8);
    assert Pow2(3) == 8;
    Pow2Add(8, 3); Pow2Add(32, 16); Pow2Add(48, 4); Pow2Add(52, 11);
  }

  lemma MaskValues(f: Format, half: nat, block: nat)
    requires Half(f) == half && Pow2(f.fractionBits) == block
    ensures SignBitMask(f) == half && ExponentBitMask(f) == half - block && FractionBitMask(f) == block - 1
  {
    SignMask(f); FractionMask(f); ExponentMask(f);
    Halves(f);
  }

  /** The masks the compiler computes for `float` and `double`. */
  lemma FloatAndDoubleMasks()
    ensures SignBitMask(FLOAT) == 0x8000_0000 && ExponentBitMask(FLOAT) == 0x7F80_0000
        && FractionBitMask(FLOAT) == 0x007F_FFFF
    ensures SignBitMask(DOUBLE) == 0x8000_0000_0000_0000 && ExponentBitMask(DOUBLE) == 0x7FF0_0000_0000_0000
    ensures FractionBitMask(DOUBLE) == 0x000F_FFFF_FFFF_FFFF
  {
    Pow2Values();
    MaskValues(FLOAT, 0x8000_0000, 0x80_0000);
    MaskValues(DOUBLE, 0x8000_0000_0000_0000, 0x10_0000_0000_0000);
  }
}
