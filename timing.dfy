/**
 * The two timing formulas of E-Z Reader. The natural logarithm and the real
 * power are taken as opaque functions `ln` and `pow`; no property of them is
 * assumed except where a lemma states one as its precondition.
 */
module Timing {

  /** The frequency/predictability term both stages share (ms). */
  function BaseTime(ln: real -> real, frequency: real, predictability: real,
                    alpha1: real, alpha2: real, alpha3: real): real
  {
    alpha1 - alpha2 * ln(frequency) - alpha3 * predictability
  }

  /** The eccentricity exponent: distance to the middle of the word. */
  function Exponent(distance: real, wordLength: int): real {
    distance + (wordLength - 1) as real / 2.0
  }

  /**
   * Familiarity check (L1): the base term scaled by eccentricity to the
   * power of the exponent. Nothing is clamped.
   */
  function FamiliarityCheckTime(
    ln: real -> real, pow: (real, real) -> real,
    distance: real, wordLength: int, frequency: real, predictability: real,
    eccentricity: real, alpha1: real, alpha2: real, alpha3: real): (t: real)
    ensures pow(eccentricity, Exponent(distance, wordLength)) == 1.0 ==>
      t == BaseTime(ln, frequency, predictability, alpha1, alpha2, alpha3)
    ensures pow(eccentricity, Exponent(distance, wordLength)) > 0.0 ==>
      (t < 0.0 <==> BaseTime(ln, frequency, predictability, alpha1, alpha2, alpha3) < 0.0)
  {
    var tL1 := BaseTime(ln, frequency, predictability, alpha1, alpha2, alpha3);
    var scale := pow(eccentricity, Exponent(distance, wordLength));
    SignOfProduct(tL1, scale);
    tL1 * scale
  }

  /** Lexical access (L2): `delta` times the base term. Nothing is clamped. */
  function LexicalAccessTime(
    ln: real -> real, frequency: real, predictability: real,
    delta: real, alpha1: real, alpha2: real, alpha3: real): (t: real)
    ensures delta > 0.0 ==>
      (t < 0.0 <==> BaseTime(ln, frequency, predictability, alpha1, alpha2, alpha3) < 0.0)
    ensures delta == 1.0 ==> t == BaseTime(ln, frequency, predictability, alpha1, alpha2, alpha3)
  {
    var base := BaseTime(ln, frequency, predictability, alpha1, alpha2, alpha3);
    SignOfProduct(base, delta);
    delta * base
  }

  lemma SignOfProduct(x: real, y: real)
    ensures y > 0.0 ==> (x * y < 0.0 <==> x < 0.0)
    ensures y > 0.0 ==> (y * x < 0.0 <==> x < 0.0)
  {
    if y > 0.0 {
      if x < 0.0 {
        assert x * y < 0.0;
      } else {
        assert x * y >= 0.0;
      }
    }
  }

  /**
   * The two stages share their base term: lexical access scaled by the
   * eccentricity factor is `delta` times the familiarity check.
   */
  lemma LexicalAndFamiliarityShareBase(
    ln: real -> real, pow: (real, real) -> real,
    distance: real, wordLength: int, frequency: real, predictability: real,
    eccentricity: real, delta: real, alpha1: real, alpha2: real, alpha3: real)
    ensures LexicalAccessTime(ln, frequency, predictability, delta, alpha1, alpha2, alpha3)
            * pow(eccentricity, Exponent(distance, wordLength))
         == delta * FamiliarityCheckTime(ln, pow, distance, wordLength, frequency, predictability,
                                         eccentricity, alpha1, alpha2, alpha3)
  {
    var b := BaseTime(ln, frequency, predictability, alpha1, alpha2, alpha3);
    var s := pow(eccentricity, Exponent(distance, wordLength));
    assert (delta * b) * s == delta * (b * s);
  }

  /** At the word's middle (exponent 0) the familiarity check is the base term. */
  lemma FamiliarityAtWordMiddle(
    ln: real -> real, pow: (real, real) -> real,
    distance: real, wordLength: int, frequency: real, predictability: real,
    eccentricity: real, alpha1: real, alpha2: real, alpha3: real)
    requires Exponent(distance, wordLength) == 0.0
    requires pow(eccentricity, 0.0) == 1.0
    ensures FamiliarityCheckTime(ln, pow, distance, wordLength, frequency, predictability,
                                 eccentricity, alpha1, alpha2, alpha3)
         == BaseTime(ln, frequency, predictability, alpha1, alpha2, alpha3)
  {
  }

  /** With `alpha3 >= 0`, a more predictable word never has a larger base term. */
  lemma BaseTimeAntitoneInPredictability(
    ln: real -> real, frequency: real, p1: real, p2: real,
    alpha1: real, alpha2: real, alpha3: real)
    requires alpha3 >= 0.0 && p1 <= p2
    ensures BaseTime(ln, frequency, p2, alpha1, alpha2, alpha3)
         <= BaseTime(ln, frequency, p1, alpha1, alpha2, alpha3)
  {
    assert alpha3 * p2 - alpha3 * p1 == alpha3 * (p2 - p1);
    assert alpha3 * (p2 - p1) >= 0.0;
  }
}
